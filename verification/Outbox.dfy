/** packages/events/src/outbox.ts: the in-memory outbox store and its dispatcher. */
module Outbox {
  import opened Basics
  import opened StableSort
  import opened Events

  datatype Envelope = Envelope(id: Text, event: Event)

  function Ids(s: seq<Envelope>): set<Text> {
    set e <- s :: e.id
  }

  predicate DistinctIds(s: seq<Envelope>) {
    forall i, j :: 0 <= i < j < |s| ==> s[i].id != s[j].id
  }

  function NotIn(published: set<Text>): Envelope -> bool { (e: Envelope) => e.id !in published }

  /** `s.slice(0, limit)`: a negative limit counts from the end. */
  function SliceTo<T>(s: seq<T>, limit: int): (r: seq<T>)
    ensures r <= s
  {
    if limit >= 0 then s[..if limit < |s| then limit else |s|]
    else s[..Max(0, |s| + limit)]
  }

  function Unpublished(pending: seq<Envelope>, published: set<Text>): seq<Envelope> {
    Filter(pending, NotIn(published))
  }

  datatype Outbox = Outbox(pending: seq<Envelope>, published: set<Text>, delivered: seq<Envelope>)

  /** One batch over a bus that does not fail. */
  function Batch(s: Outbox, limit: int): Outbox {
    var batch := SliceTo(Unpublished(s.pending, s.published), limit);
    s.(published := s.published + Ids(batch), delivered := s.delivered + batch)
  }

  /** One batch of which `n` events could be published. */
  function Dispatched(s: Outbox, limit: int, n: nat): Outbox
    requires n <= |SliceTo(Unpublished(s.pending, s.published), limit)|
  {
    var batch := SliceTo(Unpublished(s.pending, s.published), limit);
    if n == |batch| then Batch(s, limit) else s.(delivered := s.delivered + batch[..n])
  }

  /** The delivered bus; the n-th publish of its life fails if the oracle says so. */
  class Bus {
    var delivered: seq<Envelope>
    var attempts: nat
    const fails: nat -> bool

    constructor (fails: nat -> bool)
      ensures delivered == [] && attempts == 0 && this.fails == fails
    {
      delivered, attempts := [], 0;
      this.fails := fails;
    }

    method Publish(e: Envelope) returns (ok: bool)
      modifies this
      ensures attempts == old(attempts) + 1 && ok == !fails(old(attempts))
      ensures delivered == old(delivered) + if ok then [e] else []
    {
      ok := !fails(attempts);
      attempts := attempts + 1;
      if ok {
        delivered := delivered + [e];
      }
    }
  }

  class InMemoryOutboxStore {
    var pending: seq<Envelope>
    var published: set<Text>

    constructor ()
      ensures pending == [] && published == {}
    {
      pending, published := [], {};
    }

    method Enqueue(e: Envelope)
      modifies this
      ensures pending == old(pending) + [e] && published == old(published)
    {
      pending := pending + [e];
    }

    function FetchUnpublished(limit: int): seq<Envelope>
      reads this
    {
      SliceTo(Unpublished(pending, published), limit)
    }

    method MarkPublished(ids: seq<Text>)
      modifies this
      ensures pending == old(pending) && published == old(published) + set id <- ids
    {
      for i := 0 to |ids|
        invariant pending == old(pending) && published == old(published) + set id <- ids[..i]
      {
        assert ids[..i + 1] == ids[..i] + [ids[i]];
        published := published + {ids[i]};
      }
      assert ids[..|ids|] == ids;
    }
  }

  /** How many of the next `k` publishes succeed before one fails. */
  function Sent(fails: nat -> bool, from: nat, k: nat): (n: nat)
    ensures n <= k
    decreases k
  {
    if k == 0 || fails(from) then 0 else 1 + Sent(fails, from + 1, k - 1)
  }

  class OutboxDispatcher {
    const store: InMemoryOutboxStore
    const bus: Bus

    constructor (store: InMemoryOutboxStore, bus: Bus)
      ensures this.store == store && this.bus == bus
    {
      this.store := store;
      this.bus := bus;
    }

    function Tables(): Outbox
      reads this, store, bus
    {
      Outbox(store.pending, store.published, bus.delivered)
    }

    /** One batch; `None` when a publish threw, and then nothing is marked. */
    method DispatchBatch(limit: int) returns (r: Option<nat>)
      modifies store, bus
      ensures var batch := old(store.FetchUnpublished(limit));
              var n := Sent(bus.fails, old(bus.attempts), |batch|);
              && Tables() == Dispatched(old(Tables()), limit, n)
              && bus.attempts >= old(bus.attempts) + n
              && r == (if n == |batch| then Some(n) else None)
    {
      var batch := store.FetchUnpublished(limit);
      var delivered: seq<Text> := [];
      for i := 0 to |batch|
        invariant store.pending == old(store.pending) && store.published == old(store.published)
        invariant bus.delivered == old(bus.delivered) + batch[..i]
        invariant |delivered| == i && forall j :: 0 <= j < i ==> delivered[j] == batch[j].id
        invariant bus.attempts == old(bus.attempts) + i
        invariant Sent(bus.fails, old(bus.attempts), |batch|) == i + Sent(bus.fails, bus.attempts, |batch| - i)
      {
        var ok := bus.Publish(batch[i]);
        if !ok {
          return None;
        }
        assert batch[..i + 1] == batch[..i] + [batch[i]];
        delivered := delivered + [batch[i].id];
      }
      assert batch[..|batch|] == batch;
      IdsOf(batch, delivered);
      if |delivered| > 0 {
        store.MarkPublished(delivered);
      }
      return Some(|delivered|);
    }
  }

  lemma IdsOf(batch: seq<Envelope>, ids: seq<Text>)
    requires |ids| == |batch| && forall j :: 0 <= j < |batch| ==> ids[j] == batch[j].id
    ensures (set id <- ids) == Ids(batch)
  {
    forall x ensures x in (set id <- ids) <==> x in Ids(batch) {
      if x in ids {
        var j :| 0 <= j < |ids| && ids[j] == x;
        assert batch[j] in batch;
      }
      if x in Ids(batch) {
        var j :| 0 <= j < |batch| && batch[j].id == x;
        assert ids[j] in ids;
      }
    }
  }

  // ------------------------------------------------- a bus that never fails, one dispatcher

  /** The published ids are those of the first `p` events. */
  ghost predicate Prefix(pending: seq<Envelope>, published: set<Text>, p: nat) {
    p <= |pending| && published == Ids(pending[..p])
  }

  lemma {:induction false} UnpublishedIsSuffix(pending: seq<Envelope>, published: set<Text>, p: nat)
    requires DistinctIds(pending) && Prefix(pending, published, p)
    ensures Unpublished(pending, published) == pending[p..]
  {
    assert pending == pending[..p] + pending[p..];
    FilterAppend(pending[..p], pending[p..], NotIn(published));
    FilterNone(pending[..p], NotIn(published));
    forall e | e in pending[p..] ensures e.id !in published {
      var i :| p <= i < |pending| && pending[i] == e;
    }
    FilterAll(pending[p..], NotIn(published));
  }

  function Batches(s: Outbox, limit: int, k: nat): Outbox
    decreases k
  {
    if k == 0 then s else Batches(Batch(s, limit), limit, k - 1)
  }

  /** How many batches of `d` it takes to use up `n`. */
  function Calls(n: nat, d: nat): nat
    requires d > 0
    decreases n
  {
    if n == 0 then 0 else 1 + Calls(if n <= d then 0 else n - d, d)
  }

  /** That is `n / d`, rounded up. */
  lemma {:induction false} CallsIsCeiling(n: nat, d: nat)
    requires d > 0
    ensures Calls(n, d) * d >= n && (n > 0 ==> (Calls(n, d) - 1) * d < n)
    decreases n
  {
    if n > 0 {
      var k := Calls(if n <= d then 0 else n - d, d);
      CallsIsCeiling(if n <= d then 0 else n - d, d);
      assert (1 + k) * d == d + k * d;
    }
  }

  lemma BatchAdvances(s: Outbox, limit: int, p: nat)
    requires DistinctIds(s.pending) && Prefix(s.pending, s.published, p) && limit >= 0
    ensures var q := After(s.pending, p, limit);
            && Prefix(s.pending, Batch(s, limit).published, q)
            && Batch(s, limit).delivered == s.delivered + s.pending[p..q]
            && |Unpublished(s.pending, s.published)| - |Unpublished(s.pending, Batch(s, limit).published)| == q - p
  {
    var q := After(s.pending, p, limit);
    UnpublishedIsSuffix(s.pending, s.published, p);
    assert SliceTo(s.pending[p..], limit) == s.pending[p..q];
    assert s.pending[..q] == s.pending[..p] + s.pending[p..q];
    UnpublishedIsSuffix(s.pending, Batch(s, limit).published, q);
  }

  function After(pending: seq<Envelope>, p: nat, limit: nat): nat {
    if limit < |pending| - p then p + limit else |pending|
  }

  lemma CallsLeft(pending: seq<Envelope>, p: nat, limit: int)
    requires p < |pending| && limit >= 1
    ensures p < After(pending, p, limit) <= |pending|
    ensures Calls(|pending| - p, limit) == 1 + Calls(|pending| - After(pending, p, limit), limit)
  {
  }

  lemma {:induction false} DrainsAll(s: Outbox, limit: int, p: nat, k: nat)
    requires DistinctIds(s.pending) && Prefix(s.pending, s.published, p)
    requires limit >= 1 && k == Calls(|s.pending| - p, limit)
    ensures var r := Batches(s, limit, k);
            r.pending == s.pending && Prefix(s.pending, r.published, |s.pending|) && r.delivered == s.delivered + s.pending[p..]
    decreases k
  {
    if p == |s.pending| {
      assert s.delivered + s.pending[p..] == s.delivered;
    } else {
      BatchAdvances(s, limit, p);
      var q := After(s.pending, p, limit);
      CallsLeft(s.pending, p, limit);
      DrainsAll(Batch(s, limit), limit, q, k - 1);
      Stitch(s.delivered, s.pending, p, q);
    }
  }

  lemma Stitch(a: seq<Envelope>, b: seq<Envelope>, p: nat, q: nat)
    requires p <= q <= |b|
    ensures a + b[p..q] + b[q..] == a + b[p..]
  {
    assert b[p..q] + b[q..] == b[p..];
  }

  lemma {:induction false} NotSooner(s: Outbox, limit: int, p: nat, k: nat)
    requires DistinctIds(s.pending) && Prefix(s.pending, s.published, p)
    requires limit >= 1 && k < Calls(|s.pending| - p, limit)
    ensures Unpublished(s.pending, Batches(s, limit, k).published) != []
    decreases k
  {
    if k == 0 {
      UnpublishedIsSuffix(s.pending, s.published, p);
    } else {
      BatchAdvances(s, limit, p);
      NotSooner(Batch(s, limit), limit, After(s.pending, p, limit), k - 1);
    }
  }

  /**
   * Dispatching n waiting events `limit` at a time empties the outbox in exactly n / limit
   * calls, rounded up, and delivers each of them once, in the order they were enqueued.
   */
  lemma DrainsInOrder(s: Outbox, limit: int, p: nat, k: nat)
    requires DistinctIds(s.pending) && Prefix(s.pending, s.published, p) && limit >= 1
    requires k * limit >= |s.pending| - p && (p < |s.pending| ==> (k - 1) * limit < |s.pending| - p)
    requires p == |s.pending| ==> k == 0
    ensures Batches(s, limit, k).delivered == s.delivered + s.pending[p..]
    ensures Unpublished(s.pending, Batches(s, limit, k).published) == []
    ensures forall j: nat :: j < k ==> Unpublished(s.pending, Batches(s, limit, j).published) != []
  {
    CeilingIsCalls(|s.pending| - p, limit, k);
    DrainsAll(s, limit, p, k);
    UnpublishedIsSuffix(s.pending, Batches(s, limit, k).published, |s.pending|);
    forall j: nat | j < k ensures Unpublished(s.pending, Batches(s, limit, j).published) != [] {
      NotSooner(s, limit, p, j);
    }
  }

  lemma CeilingIsCalls(n: nat, d: nat, k: nat)
    requires d > 0 && k * d >= n && (if n > 0 then (k - 1) * d < n else k == 0)
    ensures k == Calls(n, d)
  {
    CallsIsCeiling(n, d);
    var c := Calls(n, d);
    Apart(k, c, n, d);
    Apart(c, k, n, d);
  }

  lemma Apart(j: int, k: int, n: int, d: nat)
    requires d > 0 && j * d >= n && (k - 1) * d < n
    ensures j >= k
  {
    MoreRoundsMoreEvents(j, k - 1, d);
  }

  lemma MoreRoundsMoreEvents(j: int, k: int, d: nat)
    ensures j <= k ==> j * d <= k * d
  {
  }

  // ------------------------------------------------- several dispatchers, a bus that may fail

  /** A dispatcher between fetching a batch and marking it. */
  datatype InFlight = InFlight(batch: seq<Envelope>, sent: nat)

  datatype System = System(box: Outbox, dispatchers: seq<Option<InFlight>>)

  datatype Action =
    | EnqueueEvent(e: Envelope)
    | Fetch(d: nat, limit: int)
    | PublishNext(d: nat)
    | Abort(d: nat)
    | Mark(d: nat)

  predicate Enabled(s: System, a: Action) {
    match a
    case EnqueueEvent(e) => e.id !in Ids(s.box.pending)
    case Fetch(d, _) => d < |s.dispatchers| && s.dispatchers[d].None?
    case PublishNext(d) => d < |s.dispatchers| && s.dispatchers[d].Some? && s.dispatchers[d].value.sent < |s.dispatchers[d].value.batch|
    case Abort(d) => d < |s.dispatchers| && s.dispatchers[d].Some?
    case Mark(d) => d < |s.dispatchers| && s.dispatchers[d].Some? && s.dispatchers[d].value.sent == |s.dispatchers[d].value.batch|
  }

  function Next(s: System, a: Action): System {
    if !Enabled(s, a) then s
    else
      match a
      case EnqueueEvent(e) => s.(box := s.box.(pending := s.box.pending + [e]))
      case Fetch(d, limit) =>
        s.(dispatchers := s.dispatchers[d := Some(InFlight(SliceTo(Unpublished(s.box.pending, s.box.published), limit), 0))])
      case PublishNext(d) =>
        var f := s.dispatchers[d].value;
        System(s.box.(delivered := s.box.delivered + [f.batch[f.sent]]), s.dispatchers[d := Some(f.(sent := f.sent + 1))])
      case Abort(d) => s.(dispatchers := s.dispatchers[d := None])
      case Mark(d) =>
        System(s.box.(published := s.box.published + Ids(s.dispatchers[d].value.batch)), s.dispatchers[d := None])
  }

  function Reach(s: System, actions: seq<Action>): System
    decreases actions
  {
    if actions == [] then s else Reach(Next(s, actions[0]), actions[1..])
  }

  function Start(dispatchers: nat): System {
    System(Outbox([], {}, []), seq(dispatchers, _ => None))
  }

  function Publishes(d: nat, k: nat): seq<Action> {
    if k == 0 then [] else [PublishNext(d)] + Publishes(d, k - 1)
  }

  lemma {:induction false} ReachInTwo(s: System, a: seq<Action>, b: seq<Action>)
    ensures Reach(s, a + b) == Reach(Reach(s, a), b)
    decreases a
  {
    if a == [] {
      assert a + b == b;
    } else {
      assert (a + b)[1..] == a[1..] + b;
      ReachInTwo(Next(s, a[0]), a[1..], b);
    }
  }

  lemma {:induction false} PublishMany(s: System, d: nat, batch: seq<Envelope>, sent: nat, k: nat)
    requires d < |s.dispatchers| && s.dispatchers[d] == Some(InFlight(batch, sent)) && sent + k <= |batch|
    ensures Reach(s, Publishes(d, k)) ==
            System(s.box.(delivered := s.box.delivered + batch[sent..sent + k]), s.dispatchers[d := Some(InFlight(batch, sent + k))])
    decreases k
  {
    if k == 0 {
      assert s.box.delivered + batch[sent..sent] == s.box.delivered;
      assert s.dispatchers[d := s.dispatchers[d]] == s.dispatchers;
    } else {
      var n := Next(s, PublishNext(d));
      assert Publishes(d, k)[1..] == Publishes(d, k - 1);
      PublishMany(n, d, batch, sent + 1, k - 1);
      assert s.box.delivered + [batch[sent]] + batch[sent + 1..sent + k] == s.box.delivered + batch[sent..sent + k];
    }
  }

  /** The actions of one batch: fetch, publish up to the first failure, then mark, or give up. */
  function BatchActions(s: System, d: nat, limit: int, n: nat): seq<Action> {
    [Fetch(d, limit)] + Publishes(d, n)
    + [if n == |SliceTo(Unpublished(s.box.pending, s.box.published), limit)| then Mark(d) else Abort(d)]
  }

  /** What `DispatchBatch` does in one go is one way of interleaving those actions. */
  lemma BatchIsARun(s: System, d: nat, limit: int, n: nat)
    requires d < |s.dispatchers| && s.dispatchers[d].None?
    requires n <= |SliceTo(Unpublished(s.box.pending, s.box.published), limit)|
    ensures Reach(s, BatchActions(s, d, limit, n)) == System(Dispatched(s.box, limit, n), s.dispatchers)
  {
    ReachInTwo(s, [Fetch(d, limit)] + Publishes(d, n),
               [if n == |SliceTo(Unpublished(s.box.pending, s.box.published), limit)| then Mark(d) else Abort(d)]);
    FetchedAndSent(s, d, limit, n);
    MarkedOrAborted(s, d, limit, n);
  }

  /** The system after a fetch and `n` publishes. */
  function HalfWay(s: System, d: nat, limit: int, n: nat): System
    requires d < |s.dispatchers| && n <= |SliceTo(Unpublished(s.box.pending, s.box.published), limit)|
  {
    var batch := SliceTo(Unpublished(s.box.pending, s.box.published), limit);
    System(s.box.(delivered := s.box.delivered + batch[..n]), s.dispatchers[d := Some(InFlight(batch, n))])
  }

  lemma FetchedAndSent(s: System, d: nat, limit: int, n: nat)
    requires d < |s.dispatchers| && s.dispatchers[d].None?
    requires n <= |SliceTo(Unpublished(s.box.pending, s.box.published), limit)|
    ensures Reach(s, [Fetch(d, limit)] + Publishes(d, n)) == HalfWay(s, d, limit, n)
  {
    var batch := SliceTo(Unpublished(s.box.pending, s.box.published), limit);
    var fetched := Next(s, Fetch(d, limit));
    ReachInTwo(s, [Fetch(d, limit)], Publishes(d, n));
    ReachOne(s, Fetch(d, limit));
    PublishMany(fetched, d, batch, 0, n);
    assert fetched.dispatchers[d := Some(InFlight(batch, n))] == s.dispatchers[d := Some(InFlight(batch, n))];
    assert batch[0..n] == batch[..n];
  }

  lemma MarkedOrAborted(s: System, d: nat, limit: int, n: nat)
    requires d < |s.dispatchers| && s.dispatchers[d].None?
    requires n <= |SliceTo(Unpublished(s.box.pending, s.box.published), limit)|
    ensures var last := if n == |SliceTo(Unpublished(s.box.pending, s.box.published), limit)| then Mark(d) else Abort(d);
            Reach(HalfWay(s, d, limit, n), [last]) == System(Dispatched(s.box, limit, n), s.dispatchers)
  {
    var batch := SliceTo(Unpublished(s.box.pending, s.box.published), limit);
    ReachOne(HalfWay(s, d, limit, n), if n == |batch| then Mark(d) else Abort(d));
    assert s.dispatchers[d := Some(InFlight(batch, n))][d := None] == s.dispatchers;
    assert batch[..|batch|] == batch;
  }

  lemma ReachOne(s: System, a: Action)
    ensures Reach(s, [a]) == Next(s, a)
  {
    assert [a][1..] == [];
  }

  ghost predicate Stretch(batch: seq<Envelope>, pending: seq<Envelope>, lo: nat) {
    lo + |batch| <= |pending| && batch == pending[lo..lo + |batch|]
  }

  /** A batch in flight is a stretch of the queue that begins inside the published prefix. */
  ghost predicate BatchFits(s: System, p: nat, f: InFlight) {
    && f.sent <= |f.batch|
    && (exists lo: nat :: lo <= p && Stretch(f.batch, s.box.pending, lo))
    && forall i :: 0 <= i < f.sent ==> f.batch[i] in s.box.delivered
  }

  ghost predicate Fits(s: System, p: nat) {
    && DistinctIds(s.box.pending)
    && Prefix(s.box.pending, s.box.published, p)
    && (forall i :: 0 <= i < p ==> s.box.pending[i] in s.box.delivered)
    && (forall e :: e in s.box.delivered ==> e in s.box.pending)
    && forall d :: 0 <= d < |s.dispatchers| && s.dispatchers[d].Some? ==> BatchFits(s, p, s.dispatchers[d].value)
  }

  lemma EnqueueKeeps(s: System, a: Action, p: nat)
    requires Fits(s, p) && Enabled(s, a) && a.EnqueueEvent?
    ensures Fits(Next(s, a), p)
  {
    var n := Next(s, a);
    assert n.box.pending[..p] == s.box.pending[..p];
    forall i | 0 <= i < |s.box.pending| ensures s.box.pending[i].id != a.e.id {
      assert s.box.pending[i] in s.box.pending;
    }
    forall d | 0 <= d < |n.dispatchers| && n.dispatchers[d].Some? ensures BatchFits(n, p, n.dispatchers[d].value) {
      var f := n.dispatchers[d].value;
      assert BatchFits(s, p, f);
      var lo: nat :| lo <= p && Stretch(f.batch, s.box.pending, lo);
      assert Stretch(f.batch, n.box.pending, lo);
    }
  }

  lemma FetchKeeps(s: System, a: Action, p: nat)
    requires Fits(s, p) && Enabled(s, a) && a.Fetch?
    ensures Fits(Next(s, a), p)
  {
    var n := Next(s, a);
    UnpublishedIsSuffix(s.box.pending, s.box.published, p);
    var f := n.dispatchers[a.d].value;
    assert Stretch(f.batch, s.box.pending, p);
    forall d | 0 <= d < |n.dispatchers| && n.dispatchers[d].Some? ensures BatchFits(n, p, n.dispatchers[d].value) {
      assert d != a.d ==> BatchFits(s, p, n.dispatchers[d].value);
    }
  }

  lemma PublishKeeps(s: System, a: Action, p: nat)
    requires Fits(s, p) && Enabled(s, a) && (a.PublishNext? || a.Abort?)
    ensures Fits(Next(s, a), p)
  {
    var n := Next(s, a);
    forall d | 0 <= d < |n.dispatchers| && n.dispatchers[d].Some? ensures BatchFits(n, p, n.dispatchers[d].value) {
      BatchMoves(s, n, p, s.dispatchers[d].value, n.dispatchers[d].value);
    }
    if a.PublishNext? {
      BatchIsQueued(s, p, s.dispatchers[a.d].value);
    }
  }

  lemma BatchMoves(s: System, n: System, p: nat, f: InFlight, g: InFlight)
    requires BatchFits(s, p, f) && g.batch == f.batch && g.sent <= |g.batch|
    requires n.box.pending == s.box.pending && forall e :: e in s.box.delivered ==> e in n.box.delivered
    requires g.sent == f.sent || (g.sent == f.sent + 1 && g.batch[f.sent] in n.box.delivered)
    ensures BatchFits(n, p, g)
  {
    var lo: nat :| lo <= p && Stretch(f.batch, s.box.pending, lo);
    assert Stretch(g.batch, n.box.pending, lo);
  }

  lemma BatchIsQueued(s: System, p: nat, f: InFlight)
    requires BatchFits(s, p, f)
    ensures forall e :: e in f.batch ==> e in s.box.pending
  {
    var lo: nat :| lo <= p && Stretch(f.batch, s.box.pending, lo);
    forall i | 0 <= i < |f.batch| ensures f.batch[i] in s.box.pending {
      assert f.batch[i] == s.box.pending[lo + i];
    }
  }

  lemma MarkKeeps(s: System, a: Action, p: nat) returns (q: nat)
    requires Fits(s, p) && Enabled(s, a) && a.Mark?
    ensures Fits(Next(s, a), q) && q >= p
  {
    var f := s.dispatchers[a.d].value;
    assert BatchFits(s, p, f);
    var lo: nat :| lo <= p && Stretch(f.batch, s.box.pending, lo);
    q := Max(p, lo + |f.batch|);
    MarkedPrefix(s, f, p, lo);
    BatchDelivered(s, f, lo, p);
    MarkKeepsBatches(s, a, p, q);
  }

  lemma MarkedPrefix(s: System, f: InFlight, p: nat, lo: nat)
    requires DistinctIds(s.box.pending) && Prefix(s.box.pending, s.box.published, p)
    requires lo <= p && Stretch(f.batch, s.box.pending, lo)
    ensures Prefix(s.box.pending, s.box.published + Ids(f.batch), Max(p, lo + |f.batch|))
  {
    PrefixGrows(s.box.pending, p, lo, lo + |f.batch|);
  }

  lemma MarkKeepsBatches(s: System, a: Action, p: nat, q: nat)
    requires Fits(s, p) && Enabled(s, a) && a.Mark? && p <= q
    ensures var n := Next(s, a);
            forall d :: 0 <= d < |n.dispatchers| && n.dispatchers[d].Some? ==> BatchFits(n, q, n.dispatchers[d].value)
  {
    var n := Next(s, a);
    forall d | 0 <= d < |n.dispatchers| && n.dispatchers[d].Some? ensures BatchFits(n, q, n.dispatchers[d].value) {
      BatchStillFits(s, n, p, q, n.dispatchers[d].value);
    }
  }

  lemma BatchDelivered(s: System, f: InFlight, lo: nat, p: nat)
    requires Stretch(f.batch, s.box.pending, lo) && lo <= p <= |s.box.pending|
    requires forall i :: 0 <= i < p ==> s.box.pending[i] in s.box.delivered
    requires forall i :: 0 <= i < |f.batch| ==> f.batch[i] in s.box.delivered
    ensures forall i :: 0 <= i < Max(p, lo + |f.batch|) ==> s.box.pending[i] in s.box.delivered
  {
    forall i | 0 <= i < Max(p, lo + |f.batch|) ensures s.box.pending[i] in s.box.delivered {
      if i >= p {
        assert s.box.pending[i] == f.batch[i - lo];
      }
    }
  }

  lemma BatchStillFits(s: System, n: System, p: nat, q: nat, f: InFlight)
    requires BatchFits(s, p, f) && p <= q
    requires n.box.pending == s.box.pending && n.box.delivered == s.box.delivered
    ensures BatchFits(n, q, f)
  {
  }

  lemma PrefixGrows(pending: seq<Envelope>, p: nat, lo: nat, hi: nat)
    requires lo <= p <= |pending| && lo <= hi <= |pending|
    ensures Ids(pending[..p]) + Ids(pending[lo..hi]) == Ids(pending[..Max(p, hi)])
  {
    var q := Max(p, hi);
    forall x ensures x in Ids(pending[..p]) + Ids(pending[lo..hi]) <==> x in Ids(pending[..q]) {
      if x in Ids(pending[..q]) {
        var i :| 0 <= i < q && pending[i].id == x;
        if i < p {
          assert pending[..p][i] in pending[..p];
        } else {
          assert pending[lo..hi][i - lo] in pending[lo..hi];
        }
      }
      if x in Ids(pending[..p]) {
        var i :| 0 <= i < p && pending[i].id == x;
        assert pending[..q][i] in pending[..q];
      }
      if x in Ids(pending[lo..hi]) {
        var i :| lo <= i < hi && pending[i].id == x;
        assert pending[..q][i] in pending[..q];
      }
    }
  }

  lemma StepKeeps(s: System, a: Action, p: nat) returns (q: nat)
    requires Fits(s, p)
    ensures Fits(Next(s, a), q) && q >= p && s.box.pending <= Next(s, a).box.pending && s.box.delivered <= Next(s, a).box.delivered
  {
    q := p;
    if Enabled(s, a) {
      match a {
        case EnqueueEvent(_) => EnqueueKeeps(s, a, p);
        case Fetch(_, _) => FetchKeeps(s, a, p);
        case PublishNext(_) => PublishKeeps(s, a, p);
        case Abort(_) => PublishKeeps(s, a, p);
        case Mark(_) => q := MarkKeeps(s, a, p);
      }
    }
  }

  lemma {:induction false} RunKeeps(s: System, actions: seq<Action>, p: nat) returns (q: nat)
    requires Fits(s, p)
    ensures Fits(Reach(s, actions), q) && q >= p && s.box.pending <= Reach(s, actions).box.pending
    decreases actions
  {
    q := p;
    if actions != [] {
      var m := StepKeeps(s, actions[0], p);
      q := RunKeeps(Next(s, actions[0]), actions[1..], m);
    }
  }

  lemma StartFits(dispatchers: nat)
    ensures Fits(Start(dispatchers), 0)
  {
    assert Start(dispatchers).box.pending[..0] == [];
  }

  /**
   * However dispatchers interleave and fail, what is published is a prefix of what was
   * enqueued; all of it was delivered, nothing was delivered that was not enqueued, and
   * everything after the prefix is still there to be fetched, oldest first.
   */
  lemma PublishedIsDeliveredPrefix(dispatchers: nat, actions: seq<Action>)
    ensures var box := Reach(Start(dispatchers), actions).box;
            exists p: nat ::
              && Prefix(box.pending, box.published, p)
              && (forall i :: 0 <= i < p ==> box.pending[i] in box.delivered)
              && (forall e :: e in box.delivered ==> e in box.pending)
              && Unpublished(box.pending, box.published) == box.pending[p..]
  {
    StartFits(dispatchers);
    var p := RunKeeps(Start(dispatchers), actions, 0);
    var box := Reach(Start(dispatchers), actions).box;
    UnpublishedIsSuffix(box.pending, box.published, p);
  }

  /** Nothing enqueued is ever lost, and what is published stays published. */
  lemma NothingIsLost(dispatchers: nat, actions: seq<Action>, more: seq<Action>)
    ensures var now := Reach(Start(dispatchers), actions);
            && now.box.pending <= Reach(now, more).box.pending
            && now.box.published <= Reach(now, more).box.published
  {
    StartFits(dispatchers);
    var p := RunKeeps(Start(dispatchers), actions, 0);
    var now := Reach(Start(dispatchers), actions);
    var q := RunKeeps(now, more, p);
    var later := Reach(now, more);
    assert now.box.pending[..p] == later.box.pending[..p];
    forall x | x in Ids(later.box.pending[..p]) ensures x in Ids(later.box.pending[..q]) {
      var i :| 0 <= i < p && later.box.pending[i].id == x;
      assert later.box.pending[..q][i] in later.box.pending[..q];
    }
  }
}
