/** packages/context/src/packet.ts: the token-budgeted context packet. */
module ContextPacket {
  import opened Basics
  import opened StableSort

  datatype CacheTier = Static | SemiStable | Dynamic

  function TierOrder(t: CacheTier): int {
    match t
    case Static => 0
    case SemiStable => 1
    case Dynamic => 2
  }

  datatype ContextItem = ContextItem(id: Text, priority: real, tokens: int, cacheTier: CacheTier)

  datatype Packet = Packet(items: seq<ContextItem>, totalTokens: int, budgetTokens: int, dropped: seq<ContextItem>)

  predicate ByPriority(a: ContextItem, b: ContextItem) { a.priority >= b.priority }

  predicate ByTierThenPriority(a: ContextItem, b: ContextItem) {
    TierOrder(a.cacheTier) < TierOrder(b.cacheTier)
    || (a.cacheTier == b.cacheTier && a.priority >= b.priority)
  }

  lemma Orders()
    ensures TotalPreorder(ByPriority) && TotalPreorder(ByTierThenPriority)
  {
  }

  // --------------------------------------------------- selections of a sequence

  /** A choice of items is a mask over the sequence. */
  type Mask = seq<bool>

  function Picked(s: seq<ContextItem>, m: Mask): (r: seq<ContextItem>)
    requires |m| == |s|
    ensures |r| <= |s|
  {
    if s == [] then []
    else (if m[0] then [s[0]] else []) + Picked(s[1..], m[1..])
  }

  function Complement(m: Mask): (r: Mask)
    ensures |r| == |m| && forall i :: 0 <= i < |m| ==> r[i] == !m[i]
  {
    seq(|m|, i requires 0 <= i < |m| => !m[i])
  }

  function Tokens(s: seq<ContextItem>): int {
    if s == [] then 0 else s[0].tokens + Tokens(s[1..])
  }

  /** The greedy choice over a sequence, with `used` tokens already spent. */
  function Greedy(s: seq<ContextItem>, used: int, budget: int): (m: Mask)
    ensures |m| == |s|
  {
    if s == [] then []
    else if used + s[0].tokens <= budget then [true] + Greedy(s[1..], used + s[0].tokens, budget)
    else [false] + Greedy(s[1..], used, budget)
  }

  function Spec(items: seq<ContextItem>, budget: int): Packet {
    var ranked := Sort(items, ByPriority);
    var m := Greedy(ranked, 0, budget);
    var selected := Picked(ranked, m);
    Packet(Sort(selected, ByTierThenPriority), Tokens(selected), budget, Picked(ranked, Complement(m)))
  }

  lemma {:induction false} PickedAppend(s: seq<ContextItem>, m: Mask, x: ContextItem, b: bool)
    requires |m| == |s|
    ensures Picked(s + [x], m + [b]) == Picked(s, m) + (if b then [x] else [])
  {
    if s == [] {
      assert s + [x] == [x] && m + [b] == [b];
      assert Picked([x][1..], [b][1..]) == [];
    } else {
      assert (s + [x])[1..] == s[1..] + [x] && (m + [b])[1..] == m[1..] + [b];
      PickedAppend(s[1..], m[1..], x, b);
    }
  }

  lemma {:induction false} TokensAppend(a: seq<ContextItem>, b: seq<ContextItem>)
    ensures Tokens(a + b) == Tokens(a) + Tokens(b)
  {
    if a == [] {
      assert a + b == b;
    } else {
      assert (a + b)[1..] == a[1..] + b;
      TokensAppend(a[1..], b);
    }
  }

  lemma {:induction false} GreedyAppend(s: seq<ContextItem>, x: ContextItem, used: int, budget: int)
    ensures var m := Greedy(s, used, budget);
            Greedy(s + [x], used, budget) == m + [used + Tokens(Picked(s, m)) + x.tokens <= budget]
  {
    if s == [] {
      assert s + [x] == [x];
      assert Greedy([x][1..], used, budget) == [];
    } else {
      var next := Spend(s[0], used, budget);
      assert (s + [x])[1..] == s[1..] + [x];
      GreedyAppend(s[1..], x, next, budget);
      GreedySpends(s, used, budget);
    }
  }

  /** The tokens spent after the greedy choice looked at one item. */
  function Spend(x: ContextItem, used: int, budget: int): int {
    if used + x.tokens <= budget then used + x.tokens else used
  }

  lemma GreedySpends(s: seq<ContextItem>, used: int, budget: int)
    requires s != []
    ensures var next := Spend(s[0], used, budget);
            used + Tokens(Picked(s, Greedy(s, used, budget))) == next + Tokens(Picked(s[1..], Greedy(s[1..], next, budget)))
  {
    var m := Greedy(s, used, budget);
    assert m[1..] == Greedy(s[1..], Spend(s[0], used, budget), budget);
    var rest := Picked(s[1..], m[1..]);
    if m[0] {
      assert ([s[0]] + rest)[1..] == rest;
    } else {
      assert [] + rest == rest;
    }
  }

  /** What one more item adds to the greedy choice. */
  lemma GreedyLooksAt(done: seq<ContextItem>, x: ContextItem, budget: int)
    ensures var m, n := Greedy(done, 0, budget), Greedy(done + [x], 0, budget);
            var fits := Tokens(Picked(done, m)) + x.tokens <= budget;
            && Picked(done + [x], n) == Picked(done, m) + (if fits then [x] else [])
            && Picked(done + [x], Complement(n)) == Picked(done, Complement(m)) + (if fits then [] else [x])
            && Tokens(Picked(done, m) + [x]) == Tokens(Picked(done, m)) + x.tokens
  {
    var m := Greedy(done, 0, budget);
    var fits := Tokens(Picked(done, m)) + x.tokens <= budget;
    GreedyAppend(done, x, 0, budget);
    BothSidesAppend(done, m, x, fits);
    TokensAppend(Picked(done, m), [x]);
    TokensOfOne(x);
  }

  lemma BothSidesAppend(s: seq<ContextItem>, m: Mask, x: ContextItem, b: bool)
    requires |m| == |s|
    ensures Picked(s + [x], m + [b]) == Picked(s, m) + (if b then [x] else [])
    ensures Picked(s + [x], Complement(m + [b])) == Picked(s, Complement(m)) + (if b then [] else [x])
  {
    PickedAppend(s, m, x, b);
    assert Complement(m + [b]) == Complement(m) + [!b];
    PickedAppend(s, Complement(m), x, !b);
  }

  lemma TokensOfOne(x: ContextItem)
    ensures Tokens([x]) == x.tokens
  {
    assert [x][1..] == [];
  }

  /** Where the loop stands after it has looked at `done`. */
  ghost predicate Progress(done: seq<ContextItem>, budget: int, selected: seq<ContextItem>, dropped: seq<ContextItem>, used: int) {
    var m := Greedy(done, 0, budget);
    selected == Picked(done, m) && dropped == Picked(done, Complement(m)) && used == Tokens(selected)
  }

  lemma ProgressStep(done: seq<ContextItem>, x: ContextItem, budget: int, selected: seq<ContextItem>, dropped: seq<ContextItem>, used: int)
    requires Progress(done, budget, selected, dropped, used)
    ensures if used + x.tokens <= budget then Progress(done + [x], budget, selected + [x], dropped, used + x.tokens)
            else Progress(done + [x], budget, selected, dropped + [x], used)
  {
    GreedyLooksAt(done, x, budget);
    assert selected + [] == selected && dropped + [] == dropped;
  }

  method BuildContextPacket(items: seq<ContextItem>, budgetTokens: int) returns (p: Packet)
    ensures p == Spec(items, budgetTokens)
  {
    var byPriority := Sort(items, ByPriority);
    var selected: seq<ContextItem> := [];
    var dropped: seq<ContextItem> := [];
    var used := 0;
    for i := 0 to |byPriority|
      invariant Progress(byPriority[..i], budgetTokens, selected, dropped, used)
    {
      var item := byPriority[i];
      assert byPriority[..i + 1] == byPriority[..i] + [item];
      ProgressStep(byPriority[..i], item, budgetTokens, selected, dropped, used);
      if used + item.tokens <= budgetTokens {
        selected := selected + [item];
        used := used + item.tokens;
      } else {
        dropped := dropped + [item];
      }
    }
    assert byPriority[..|byPriority|] == byPriority;
    p := Packet(Sort(selected, ByTierThenPriority), used, budgetTokens, dropped);
  }

  // ---------------------------------------------------------------- what the packet is

  predicate Feasible(s: seq<ContextItem>, m: Mask, budget: int)
    requires |m| == |s|
  {
    Tokens(Picked(s, m)) <= budget
  }

  /** `m` keeps the first item on which the two differ. */
  ghost predicate LexLess(n: Mask, m: Mask) {
    |n| == |m| && exists i :: 0 <= i < |m| && n[..i] == m[..i] && m[i] && !n[i]
  }

  ghost predicate NonNegative(s: seq<ContextItem>) {
    forall x :: x in s ==> x.tokens >= 0
  }

  lemma {:induction false} TokensNonNegative(s: seq<ContextItem>, m: Mask)
    requires |m| == |s| && NonNegative(s)
    ensures Tokens(Picked(s, m)) >= 0
  {
    if s != [] {
      TokensNonNegative(s[1..], m[1..]);
      TokensAppend(if m[0] then [s[0]] else [], Picked(s[1..], m[1..]));
      assert Tokens([s[0]]) == s[0].tokens;
    }
  }

  lemma {:induction false} GreedyLexGreatest(s: seq<ContextItem>, m: Mask, used: int, budget: int)
    requires |m| == |s| && NonNegative(s)
    requires used + Tokens(Picked(s, m)) <= budget
    ensures m == Greedy(s, used, budget) || LexLess(m, Greedy(s, used, budget))
  {
    if s != [] {
      var g := Greedy(s, used, budget);
      TokensAppend(if m[0] then [s[0]] else [], Picked(s[1..], m[1..]));
      assert Tokens([s[0]]) == s[0].tokens;
      TokensNonNegative(s[1..], m[1..]);
      if m[0] == g[0] {
        var then' := if m[0] then used + s[0].tokens else used;
        GreedyLexGreatest(s[1..], m[1..], then', budget);
        assert m == [m[0]] + m[1..] && g == [g[0]] + g[1..];
        if m != g {
          var i :| 0 <= i < |m[1..]| && m[1..][..i] == g[1..][..i] && g[1..][i] && !m[1..][i];
          assert m[..i + 1] == [m[0]] + m[1..][..i] && g[..i + 1] == [g[0]] + g[1..][..i];
        }
      } else {
        assert m[..0] == g[..0];
      }
    }
  }

  /** A greedy choice fits whenever it picks anything, whatever the token counts. */
  lemma {:induction false} GreedyFits(s: seq<ContextItem>, used: int, budget: int)
    ensures var m := Greedy(s, used, budget);
            Picked(s, m) == [] || used + Tokens(Picked(s, m)) <= budget
  {
    if s != [] {
      var fits := used + s[0].tokens <= budget;
      var then' := if fits then used + s[0].tokens else used;
      GreedyFits(s[1..], then', budget);
      var m := Greedy(s, used, budget);
      assert m[1..] == Greedy(s[1..], then', budget);
      TokensAppend(if fits then [s[0]] else [], Picked(s[1..], m[1..]));
      assert Tokens([s[0]]) == s[0].tokens;
    }
  }

  lemma {:induction false} GreedyOverflows(s: seq<ContextItem>, used: int, budget: int, x: ContextItem)
    requires NonNegative(s)
    requires x in Picked(s, Complement(Greedy(s, used, budget)))
    ensures used + Tokens(Picked(s, Greedy(s, used, budget))) + x.tokens > budget
  {
    var m := Greedy(s, used, budget);
    var fits := used + s[0].tokens <= budget;
    var then' := if fits then used + s[0].tokens else used;
    assert m[1..] == Greedy(s[1..], then', budget);
    assert Complement(m)[1..] == Complement(m[1..]);
    TokensAppend(if fits then [s[0]] else [], Picked(s[1..], m[1..]));
    assert Tokens([s[0]]) == s[0].tokens;
    TokensNonNegative(s[1..], m[1..]);
    if x in Picked(s[1..], Complement(m[1..])) {
      GreedyOverflows(s[1..], then', budget, x);
    }
  }

  lemma {:induction false} PickedPartition(s: seq<ContextItem>, m: Mask)
    requires |m| == |s|
    ensures multiset(Picked(s, m)) + multiset(Picked(s, Complement(m))) == multiset(s)
  {
    if s != [] {
      PickedPartition(s[1..], m[1..]);
      assert Complement(m)[1..] == Complement(m[1..]);
      assert s == [s[0]] + s[1..];
    }
  }

  /**
   * The packet splits the input into what it holds and what it dropped, totals exactly what
   * it holds, and never exceeds the budget (nor, holding nothing, spends anything).
   */
  lemma PacketConserves(items: seq<ContextItem>, budget: int)
    ensures var p := Spec(items, budget);
            && multiset(p.items) + multiset(p.dropped) == multiset(items)
            && p.totalTokens == Tokens(p.items)
            && (p.totalTokens <= budget || (p.items == [] && p.totalTokens == 0))
  {
    var ranked := Sort(items, ByPriority);
    var m := Greedy(ranked, 0, budget);
    PickedPartition(ranked, m);
    GreedyFits(ranked, 0, budget);
    TokensOfPermutation(Picked(ranked, m), Sort(Picked(ranked, m), ByTierThenPriority));
  }

  lemma {:induction false} TokensOfPermutation(a: seq<ContextItem>, b: seq<ContextItem>)
    requires multiset(a) == multiset(b)
    ensures Tokens(a) == Tokens(b)
  {
    if a == [] {
      assert |multiset(a)| == |a| && |multiset(b)| == |b|;
    } else {
      var i := Matching(a, b);
      TokensWithout(b, i);
      TokensOfPermutation(a[1..], b[..i] + b[i + 1..]);
    }
  }

  /** A place in `b` for the first item of `a`, and the rest matches the rest. */
  lemma Matching(a: seq<ContextItem>, b: seq<ContextItem>) returns (i: nat)
    requires a != [] && multiset(a) == multiset(b)
    ensures i < |b| && b[i] == a[0] && multiset(a[1..]) == multiset(b[..i] + b[i + 1..])
  {
    i := PlaceOf(b, a[0]);
    BagWithout(b, i);
    BagWithoutFirst(a);
  }

  lemma PlaceOf(b: seq<ContextItem>, x: ContextItem) returns (i: nat)
    requires x in multiset(b)
    ensures i < |b| && b[i] == x
  {
    i :| 0 <= i < |b| && b[i] == x;
  }

  lemma BagWithoutFirst(a: seq<ContextItem>)
    requires a != []
    ensures multiset(a[1..]) == multiset(a) - multiset{a[0]}
  {
    assert a == [a[0]] + a[1..];
  }

  lemma TokensWithout(b: seq<ContextItem>, i: nat)
    requires i < |b|
    ensures Tokens(b) == b[i].tokens + Tokens(b[..i] + b[i + 1..])
  {
    var head, tail := b[..i], b[i + 1..];
    TokensOfOne(b[i]);
    TokensAppend([b[i]], tail);
    TokensAppend(head, [b[i]] + tail);
    TokensAppend(head, tail);
    assert b == head + ([b[i]] + tail);
  }

  lemma BagWithout(b: seq<ContextItem>, i: nat)
    requires i < |b|
    ensures multiset(b[..i] + b[i + 1..]) == multiset(b) - multiset{b[i]}
  {
    assert b == b[..i] + [b[i]] + b[i + 1..];
  }

  ghost predicate LexGreatestFeasible(s: seq<ContextItem>, m: Mask, budget: int) {
    && |m| == |s|
    && (budget >= 0 ==> Feasible(s, m, budget))
    && forall n: Mask :: |n| == |s| && Feasible(s, n, budget) ==> n == m || LexLess(n, m)
  }

  /**
   * Of all choices within the budget, the packet holds the one that keeps the
   * highest-ranked item on which they differ.
   */
  lemma PacketIsLexGreatest(items: seq<ContextItem>, budget: int)
    requires NonNegative(items)
    ensures var ranked := Sort(items, ByPriority);
            exists m: Mask ::
              && LexGreatestFeasible(ranked, m, budget)
              && multiset(Spec(items, budget).items) == multiset(Picked(ranked, m))
              && Spec(items, budget).dropped == Picked(ranked, Complement(m))
  {
    var ranked := Sort(items, ByPriority);
    var m := Greedy(ranked, 0, budget);
    forall n: Mask | |n| == |ranked| && Feasible(ranked, n, budget) ensures n == m || LexLess(n, m) {
      GreedyLexGreatest(ranked, n, 0, budget);
    }
    GreedyFits(ranked, 0, budget);
    assert LexGreatestFeasible(ranked, m, budget);
  }

  /** Nothing the packet dropped would still fit in it. */
  lemma DroppedOverflows(items: seq<ContextItem>, budget: int, x: ContextItem)
    requires NonNegative(items) && x in Spec(items, budget).dropped
    ensures Spec(items, budget).totalTokens + x.tokens > budget
  {
    GreedyOverflows(Sort(items, ByPriority), 0, budget, x);
  }

  // ---------------------------------------------------------------- lowest priority first?

  /** How many items at the front of the ranking fit one after another. */
  function FittingPrefix(s: seq<ContextItem>, used: int, budget: int): (k: nat)
    ensures k <= |s|
  {
    if s != [] && used + s[0].tokens <= budget then 1 + FittingPrefix(s[1..], used + s[0].tokens, budget) else 0
  }

  /** Nothing is kept that ranks below something dropped. */
  ghost predicate DropsFromTheEnd(m: Mask) {
    forall i, j :: 0 <= i < j < |m| && m[j] ==> m[i]
  }

  /** Every later item would overflow what the first `k` leave of the budget. */
  ghost predicate NothingSmallerLater(s: seq<ContextItem>, k: nat, used: int, budget: int)
    requires k <= |s|
  {
    forall j :: k < j < |s| ==> used + Tokens(s[..k]) + s[j].tokens > budget
  }

  ghost predicate NoneKept(m: Mask) {
    forall j :: 0 <= j < |m| ==> !m[j]
  }

  ghost predicate NoneFits(s: seq<ContextItem>, used: int, budget: int) {
    forall x :: x in s ==> used + x.tokens > budget
  }

  lemma NoneKeptPast(b: bool, m: Mask)
    ensures NoneKept([b] + m) <==> !b && NoneKept(m)
  {
    var n := [b] + m;
    assert n[0] == b && n[1..] == m;
    assert forall j :: 0 <= j < |m| ==> m[j] == n[j + 1];
    if !b && NoneKept(m) {
      forall j | 0 <= j < |n| ensures !n[j] {
        assert j > 0 ==> n[j] == m[j - 1];
      }
    }
  }

  lemma NoneFitsPast(x: ContextItem, s: seq<ContextItem>, used: int, budget: int)
    ensures NoneFits([x] + s, used, budget) <==> used + x.tokens > budget && NoneFits(s, used, budget)
  {
    assert x in [x] + s;
    assert forall y :: y in s ==> y in [x] + s;
  }

  lemma {:induction false} GreedyKeepsNone(s: seq<ContextItem>, used: int, budget: int)
    ensures NoneKept(Greedy(s, used, budget)) <==> NoneFits(s, used, budget)
  {
    if s != [] {
      assert s == [s[0]] + s[1..];
      NoneFitsPast(s[0], s[1..], used, budget);
      if used + s[0].tokens <= budget {
        NoneKeptPast(true, Greedy(s[1..], used + s[0].tokens, budget));
      } else {
        NoneKeptPast(false, Greedy(s[1..], used, budget));
        GreedyKeepsNone(s[1..], used, budget);
      }
    }
  }

  lemma LaterIsRest(s: seq<ContextItem>, used: int, budget: int)
    requires s != []
    ensures NothingSmallerLater(s, 0, used, budget) <==> NoneFits(s[1..], used, budget)
  {
    assert s[..0] == [];
    if NothingSmallerLater(s, 0, used, budget) {
      forall x | x in s[1..] ensures used + x.tokens > budget {
        var i :| 0 <= i < |s[1..]| && s[1..][i] == x;
        assert s[i + 1] == x;
      }
    }
    if NoneFits(s[1..], used, budget) {
      forall j | 0 < j < |s| ensures used + Tokens(s[..0]) + s[j].tokens > budget {
        assert s[1..][j - 1] == s[j];
      }
    }
  }

  lemma {:induction false} GreedyDropsFromTheEnd(s: seq<ContextItem>, used: int, budget: int)
    ensures DropsFromTheEnd(Greedy(s, used, budget)) <==> NothingSmallerLater(s, FittingPrefix(s, used, budget), used, budget)
  {
    if s != [] {
      var rest := s[1..];
      if used + s[0].tokens <= budget {
        GreedyDropsFromTheEnd(rest, used + s[0].tokens, budget);
        KeptFirst(Greedy(rest, used + s[0].tokens, budget));
        PrefixPastFirst(s, FittingPrefix(rest, used + s[0].tokens, budget), used, budget);
      } else {
        GreedyKeepsNone(rest, used, budget);
        DroppedFirst(Greedy(rest, used, budget));
        LaterIsRest(s, used, budget);
      }
    }
  }

  lemma KeptFirst(m: Mask)
    ensures DropsFromTheEnd([true] + m) <==> DropsFromTheEnd(m)
  {
    var n := [true] + m;
    assert forall i :: 0 <= i < |m| ==> m[i] == n[i + 1];
    if DropsFromTheEnd(m) {
      forall i, j | 0 <= i < j < |n| && n[j] ensures n[i] {
        assert i > 0 ==> m[j - 1] ==> m[i - 1];
      }
    }
  }

  lemma DroppedFirst(m: Mask)
    ensures DropsFromTheEnd([false] + m) <==> NoneKept(m)
  {
    var n := [false] + m;
    assert forall i :: 0 <= i < |m| ==> m[i] == n[i + 1];
    if DropsFromTheEnd(n) {
      forall j | 0 <= j < |m| ensures !m[j] {
        var first := n[0];
        assert n[j + 1] ==> first;
      }
    }
  }

  lemma PrefixPastFirst(s: seq<ContextItem>, k: nat, used: int, budget: int)
    requires s != [] && k < |s|
    ensures NothingSmallerLater(s, k + 1, used, budget) <==> NothingSmallerLater(s[1..], k, used + s[0].tokens, budget)
  {
    assert s[..k + 1] == [s[0]] + s[1..][..k];
    TokensAppend([s[0]], s[1..][..k]);
    TokensOfOne(s[0]);
    assert forall j :: k + 1 < j < |s| ==> s[j] == s[1..][j - 1];
    if NothingSmallerLater(s, k + 1, used, budget) {
      forall j | k < j < |s[1..]| ensures used + s[0].tokens + Tokens(s[1..][..k]) + s[1..][j].tokens > budget {
        assert s[1..][j] == s[j + 1];
      }
    }
  }

  lemma {:induction false} PrefixIsPicked(s: seq<ContextItem>, used: int, budget: int)
    requires DropsFromTheEnd(Greedy(s, used, budget))
    ensures var k, m := FittingPrefix(s, used, budget), Greedy(s, used, budget);
            Picked(s, m) == s[..k] && Picked(s, Complement(m)) == s[k..]
  {
    if s != [] {
      var m := Greedy(s, used, budget);
      assert Complement(m)[1..] == Complement(m[1..]);
      if used + s[0].tokens <= budget {
        KeptFirst(m[1..]);
        PrefixIsPicked(s[1..], used + s[0].tokens, budget);
      } else {
        DroppedFirst(m[1..]);
        AllOrNothing(s[1..], m[1..]);
      }
    }
  }

  lemma {:induction false} AllOrNothing(s: seq<ContextItem>, m: Mask)
    requires |m| == |s| && NoneKept(m)
    ensures Picked(s, m) == [] && Picked(s, Complement(m)) == s
  {
    if s != [] {
      AllOrNothing(s[1..], m[1..]);
      assert Complement(m)[1..] == Complement(m[1..]);
    }
  }

  /**
   * Nothing is kept that ranks below something dropped exactly when, past the items that fit one
   * after another, there is no later one small enough for what they leave; and then the packet is
   * that prefix of the ranking.  Ranks break ties of priority by input order.
   */
  lemma LowestRankDroppedFirst(items: seq<ContextItem>, budget: int)
    ensures var ranked := Sort(items, ByPriority);
            var k, m := FittingPrefix(ranked, 0, budget), Greedy(ranked, 0, budget);
            && (DropsFromTheEnd(m) <==> forall j :: k < j < |ranked| ==> Tokens(ranked[..k]) + ranked[j].tokens > budget)
            && (DropsFromTheEnd(m) ==>
                  && Spec(items, budget).dropped == ranked[k..]
                  && multiset(Spec(items, budget).items) == multiset(ranked[..k]))
  {
    var ranked := Sort(items, ByPriority);
    GreedyDropsFromTheEnd(ranked, 0, budget);
    if DropsFromTheEnd(Greedy(ranked, 0, budget)) {
      PrefixIsPicked(ranked, 0, budget);
    }
  }

  /** How many items lead the ranking with at least this priority. */
  function AtLeast(s: seq<ContextItem>, priority: real): (e: nat)
    ensures e <= |s|
    ensures forall i :: 0 <= i < e ==> s[i].priority >= priority
    ensures e < |s| ==> s[e].priority < priority
  {
    if s != [] && s[0].priority >= priority then 1 + AtLeast(s[1..], priority) else 0
  }

  /** Every item of lower priority would overflow what the others leave of the budget. */
  ghost predicate NothingFitsBelow(s: seq<ContextItem>, e: nat, budget: int)
    requires e <= |s|
  {
    NoneFits(s[e..], Tokens(Picked(s[..e], Greedy(s[..e], 0, budget))), budget)
  }

  /** Nothing is kept of lower priority than something dropped. */
  ghost predicate KeepsByPriority(s: seq<ContextItem>, m: Mask)
    requires |m| == |s|
  {
    forall i, j :: 0 <= i < |m| && 0 <= j < |m| && m[j] && !m[i] ==> s[i].priority <= s[j].priority
  }

  lemma {:induction false} GreedySplit(a: seq<ContextItem>, b: seq<ContextItem>, used: int, budget: int)
    ensures Greedy(a + b, used, budget) ==
            Greedy(a, used, budget) + Greedy(b, used + Tokens(Picked(a, Greedy(a, used, budget))), budget)
  {
    if a == [] {
      assert a + b == b;
    } else {
      assert (a + b)[1..] == a[1..] + b;
      GreedySplit(a[1..], b, Spend(a[0], used, budget), budget);
      GreedySpends(a, used, budget);
    }
  }

  /** The fitting prefix is kept, and the item after it is dropped. */
  lemma {:induction false} FittingPrefixKept(s: seq<ContextItem>, used: int, budget: int)
    ensures var k, m := FittingPrefix(s, used, budget), Greedy(s, used, budget);
            && (forall i :: 0 <= i < k ==> m[i])
            && (k < |s| ==> !m[k])
  {
    if s != [] && used + s[0].tokens <= budget {
      FittingPrefixKept(s[1..], used + s[0].tokens, budget);
    }
  }

  lemma KeepsByPriorityExactly(s: seq<ContextItem>, budget: int)
    requires Sorted(s, ByPriority)
    ensures var k := FittingPrefix(s, 0, budget);
            KeepsByPriority(s, Greedy(s, 0, budget)) <==> (k < |s| ==> NothingFitsBelow(s, AtLeast(s, s[k].priority), budget))
  {
    var k, m := FittingPrefix(s, 0, budget), Greedy(s, 0, budget);
    FittingPrefixKept(s, 0, budget);
    if k < |s| {
      var e := AtLeast(s, s[k].priority);
      LowerFrom(s, k, e);
      BelowIsDropped(s, e, budget);
      if KeepsByPriority(s, m) {
        forall j | 0 <= j < |m[e..]| ensures !m[e..][j] {
          assert s[e + j].priority < s[k].priority;
        }
      }
      if NothingFitsBelow(s, e, budget) {
        assert forall j :: e <= j < |s| ==> m[j] == m[e..][j - e];
        forall i, j | 0 <= i < |m| && 0 <= j < |m| && m[j] && !m[i] ensures s[i].priority <= s[j].priority {
          assert i >= k && j < e;
          assert i > k ==> ByPriority(s[k], s[i]);
        }
      }
    }
  }

  lemma LowerFrom(s: seq<ContextItem>, k: nat, e: nat)
    requires Sorted(s, ByPriority) && k < |s| && e == AtLeast(s, s[k].priority)
    ensures forall j :: e <= j < |s| ==> s[j].priority < s[k].priority
  {
    forall j | e <= j < |s| ensures s[j].priority < s[k].priority {
      assert e < j ==> ByPriority(s[e], s[j]);
    }
  }

  lemma BelowIsDropped(s: seq<ContextItem>, e: nat, budget: int)
    requires e <= |s|
    ensures NothingFitsBelow(s, e, budget) <==> NoneKept(Greedy(s, 0, budget)[e..])
  {
    assert s == s[..e] + s[e..];
    GreedyTail(s[..e], s[e..], budget);
    GreedyKeepsNone(s[e..], Tokens(Picked(s[..e], Greedy(s[..e], 0, budget))), budget);
  }

  lemma GreedyTail(a: seq<ContextItem>, b: seq<ContextItem>, budget: int)
    ensures Greedy(a + b, 0, budget)[|a|..] == Greedy(b, Tokens(Picked(a, Greedy(a, 0, budget))), budget)
  {
    GreedySplit(a, b, 0, budget);
  }

  lemma {:induction false} PickedAt(s: seq<ContextItem>, m: Mask, x: ContextItem)
    requires |m| == |s|
    ensures x in Picked(s, m) <==> exists i :: 0 <= i < |s| && m[i] && s[i] == x
  {
    if s != [] {
      PickedAt(s[1..], m[1..], x);
      if i :| 0 <= i < |s| && m[i] && s[i] == x {
        assert i > 0 ==> m[1..][i - 1] && s[1..][i - 1] == x;
      }
      if i :| 0 <= i < |s[1..]| && m[1..][i] && s[1..][i] == x {
        assert m[i + 1] && s[i + 1] == x;
      }
    }
  }

  /** Nothing dropped has a higher priority than something held. */
  ghost predicate NothingHigher(dropped: seq<ContextItem>, held: seq<ContextItem>) {
    forall x, y :: x in held && y in dropped ==> y.priority <= x.priority
  }

  lemma NothingHigherKeeps(s: seq<ContextItem>, m: Mask)
    requires |m| == |s| && NothingHigher(Picked(s, Complement(m)), Picked(s, m))
    ensures KeepsByPriority(s, m)
  {
    forall i, j | 0 <= i < |m| && 0 <= j < |m| && m[j] && !m[i] ensures s[i].priority <= s[j].priority {
      PickedAt(s, m, s[j]);
      PickedAt(s, Complement(m), s[i]);
    }
  }

  lemma KeepsNothingHigher(s: seq<ContextItem>, m: Mask)
    requires |m| == |s| && KeepsByPriority(s, m)
    ensures NothingHigher(Picked(s, Complement(m)), Picked(s, m))
  {
    forall x, y | x in Picked(s, m) && y in Picked(s, Complement(m)) ensures y.priority <= x.priority {
      PickedAt(s, m, x);
      PickedAt(s, Complement(m), y);
    }
  }

  /**
   * Lowest priority is dropped first, that is, nothing dropped has a higher priority than
   * something held, exactly when everything fits, or nothing of lower priority than the first
   * item that does not fit would fit beside what is kept of the others.
   */
  lemma LowestPriorityDroppedFirst(items: seq<ContextItem>, budget: int)
    ensures var ranked := Sort(items, ByPriority);
            var k := FittingPrefix(ranked, 0, budget);
            NothingHigher(Spec(items, budget).dropped, Spec(items, budget).items)
            <==> (k < |ranked| ==> NothingFitsBelow(ranked, AtLeast(ranked, ranked[k].priority), budget))
  {
    Orders();
    SortSorted(items, ByPriority);
    var ranked := Sort(items, ByPriority);
    var m := Greedy(ranked, 0, budget);
    KeepsByPriorityExactly(ranked, budget);
    if KeepsByPriority(ranked, m) {
      KeepsNothingHigher(ranked, m);
    }
    if NothingHigher(Spec(items, budget).dropped, Spec(items, budget).items) {
      NothingHigherKeeps(ranked, m);
    }
  }

  const LARGE_URGENT: ContextItem := ContextItem(Spell("large"), 2.0, 10, Dynamic)
  const SMALL_MINOR: ContextItem := ContextItem(Spell("small"), 1.0, 1, Dynamic)

  /** It need not be: the item of higher priority is dropped, the one of lower priority kept. */
  lemma HighPriorityDropped()
    ensures LARGE_URGENT.priority > SMALL_MINOR.priority
    ensures Spec([LARGE_URGENT, SMALL_MINOR], 5) == Packet([SMALL_MINOR], 1, 5, [LARGE_URGENT])
  {
    var items := [LARGE_URGENT, SMALL_MINOR];
    assert items[1..] == [SMALL_MINOR] && [SMALL_MINOR][1..] == [];
    assert Sort([SMALL_MINOR], ByPriority) == [SMALL_MINOR];
    assert Sort(items, ByPriority) == items;
    assert Greedy([SMALL_MINOR], 0, 5) == [true];
    assert Greedy(items, 0, 5) == [false, true];
    assert [false, true][1..] == [true] && [true][1..] == [];
    assert Picked([SMALL_MINOR], [true]) == [SMALL_MINOR];
    assert Picked(items, [false, true]) == [SMALL_MINOR];
    assert Complement([false, true]) == [true, false];
    assert [true, false][1..] == [false] && [false][1..] == [];
    assert Picked([SMALL_MINOR], [false]) == [];
    assert Picked(items, [true, false]) == [LARGE_URGENT];
    assert Sort([SMALL_MINOR], ByTierThenPriority) == [SMALL_MINOR];
    TokensOfOne(SMALL_MINOR);
  }

  // ---------------------------------------------------------------- order

  ghost predicate Subsequence(a: seq<ContextItem>, b: seq<ContextItem>) {
    exists m: Mask :: |m| == |b| && Picked(b, m) == a
  }

  lemma {:induction false} FilterOfPicked(s: seq<ContextItem>, m: Mask, p: ContextItem -> bool)
    requires |m| == |s|
    ensures Subsequence(Filter(Picked(s, m), p), Filter(s, p))
  {
    if s == [] {
      assert Picked([], []) == [];
    } else {
      FilterOfPicked(s[1..], m[1..], p);
      var n: Mask :| |n| == |Filter(s[1..], p)| && Picked(Filter(s[1..], p), n) == Filter(Picked(s[1..], m[1..]), p);
      var rest := Picked(s[1..], m[1..]);
      FilterPastHead(s[0], rest, p);
      assert Picked(s, m) == if m[0] then [s[0]] + rest else rest;
      if p(s[0]) {
        PickedPastHead(s[0], Filter(s[1..], p), m[0], n);
        assert Picked(Filter(s, p), [m[0]] + n) == Filter(Picked(s, m), p);
      } else {
        assert Picked(Filter(s, p), n) == Filter(Picked(s, m), p);
      }
    }
  }

  lemma PickedPastHead(x: ContextItem, s: seq<ContextItem>, b: bool, m: Mask)
    requires |m| == |s|
    ensures Picked([x] + s, [b] + m) == (if b then [x] else []) + Picked(s, m)
  {
    assert ([x] + s)[1..] == s && ([b] + m)[1..] == m;
  }

  /**
   * The packet is ordered by cache tier, then priority; items that tie on both stand in
   * the order they had in the input.
   */
  lemma PacketOrder(items: seq<ContextItem>, budget: int, x: ContextItem)
    ensures var p := Spec(items, budget);
            && Sorted(p.items, ByTierThenPriority)
            && Subsequence(Filter(p.items, Ties(ByTierThenPriority, x)), Filter(items, Ties(ByTierThenPriority, x)))
  {
    Orders();
    var selected := Picked(Sort(items, ByPriority), Greedy(Sort(items, ByPriority), 0, budget));
    SortSorted(selected, ByTierThenPriority);
    SortStable(selected, ByTierThenPriority, x);
    FilterOfPicked(Sort(items, ByPriority), Greedy(Sort(items, ByPriority), 0, budget), Ties(ByTierThenPriority, x));
    RankingKeepsTies(items, x);
  }

  /** Ranking by priority alone does not reorder items that tie on tier and priority. */
  lemma RankingKeepsTies(items: seq<ContextItem>, x: ContextItem)
    ensures Filter(Sort(items, ByPriority), Ties(ByTierThenPriority, x)) == Filter(items, Ties(ByTierThenPriority, x))
  {
    Orders();
    SortFilterCommute(items, ByPriority, Ties(ByTierThenPriority, x));
    SortSame(Filter(items, Ties(ByTierThenPriority, x)), ByPriority);
  }
}
