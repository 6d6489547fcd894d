/**
 * packages/policy/src/approval.ts: the canonical text of a scope, scope equality, and
 * whether an approval still covers an action.
 */
module ApprovalScope {
  import opened Basics
  import opened JsonValues
  import opened LeafText
  import opened StableSort

  /** The default order of `Array.prototype.sort` on strings: by UTF-16 code unit. */
  predicate TextLeq(a: Text, b: Text) {
    if a == [] then true
    else if b == [] then false
    else if a[0] != b[0] then a[0] < b[0]
    else TextLeq(a[1..], b[1..])
  }

  function SortedKeys(ms: seq<Member>): (ks: seq<Text>)
    ensures forall k :: k in ks <==> k in Keys(ms)
  {
    Sort(Keys(ms), TextLeq)
  }

  function StableStringify(j: Json): Text
    decreases j, 0
  {
    match j
    case Undefined => NULL_TEXT
    case Null => NULL_TEXT
    case Bool(b) => if b then TRUE_TEXT else FALSE_TEXT
    case Num(n) => NumberText(n)
    case Str(s) => Quote(s)
    case Arr(items) => [OPEN_BRACKET] + JoinItems(items) + [CLOSE_BRACKET]
    case Obj(ms) => [OPEN_BRACE] + JoinMembers(ms, SortedKeys(ms)) + [CLOSE_BRACE]
  }

  function JoinItems(items: seq<Json>): Text
    decreases items, 0
  {
    if items == [] then []
    else StableStringify(items[0]) + JoinMoreItems(items[1..])
  }

  function JoinMoreItems(items: seq<Json>): Text
    decreases items, 1
  {
    if items == [] then [] else [COMMA] + JoinItems(items)
  }

  function JoinMembers(ms: seq<Member>, keys: seq<Text>): Text
    requires forall k :: k in keys ==> k in Keys(ms)
    decreases ms, |keys|, 0
  {
    if keys == [] then []
    else MemberText(ms, keys[0]) + JoinMoreMembers(ms, keys[1..])
  }

  function JoinMoreMembers(ms: seq<Member>, keys: seq<Text>): Text
    requires forall k :: k in keys ==> k in Keys(ms)
    decreases ms, |keys|, 1
  {
    if keys == [] then [] else [COMMA] + JoinMembers(ms, keys)
  }

  function MemberText(ms: seq<Member>, key: Text): Text
    requires key in Keys(ms)
    decreases ms, 0, 0
  {
    Quote(key) + [COLON] + StableStringify(ms[IndexOf(ms, key)].value)
  }

  predicate ScopesEqual(a: Json, b: Json) {
    StableStringify(a) == StableStringify(b)
  }

  predicate IsScopeChangeMaterial(approved: Json, current: Json) {
    !ScopesEqual(approved, current)
  }

  datatype ApprovalDecision = Pending | Approved | Rejected | Expired

  datatype ApprovalRecordView =
    ApprovalRecordView(decision: ApprovalDecision, exactScope: Json, expiresAt: Option<int>)

  predicate ApprovalStillValid(approval: ApprovalRecordView, current: Json, now: int) {
    if approval.decision != Approved then false
    else if approval.expiresAt.Some? && approval.expiresAt.value <= now then false
    else ScopesEqual(approval.exactScope, current)
  }

  // ---------------------------------------------------------------- the key order

  lemma {:induction false} TextLeqTotal(a: Text, b: Text)
    ensures TextLeq(a, b) || TextLeq(b, a)
    ensures TextLeq(a, b) && TextLeq(b, a) ==> a == b
  {
    if a != [] && b != [] && a[0] == b[0] {
      TextLeqTotal(a[1..], b[1..]);
      assert a == [a[0]] + a[1..] && b == [b[0]] + b[1..];
    }
  }

  lemma {:induction false} TextLeqTransitive(a: Text, b: Text, c: Text)
    requires TextLeq(a, b) && TextLeq(b, c)
    ensures TextLeq(a, c)
  {
    if a != [] && b != [] && c != [] && a[0] == b[0] == c[0] {
      TextLeqTransitive(a[1..], b[1..], c[1..]);
    }
  }

  lemma TextOrder()
    ensures TotalPreorder(TextLeq)
    ensures forall a, b :: TextLeq(a, b) && TextLeq(b, a) ==> a == b
  {
    forall a, b ensures TextLeq(a, b) || TextLeq(b, a) {
      TextLeqTotal(a, b);
    }
    forall a, b | TextLeq(a, b) && TextLeq(b, a) ensures a == b {
      TextLeqTotal(a, b);
    }
    forall a, b, c | TextLeq(a, b) && TextLeq(b, c) ensures TextLeq(a, c) {
      TextLeqTransitive(a, b, c);
    }
  }

  /** Two sorted sequences with the same elements, none repeated, are the same. */
  lemma {:induction false} SortedKeysUnique(xs: seq<Text>, ys: seq<Text>)
    requires Sorted(xs, TextLeq) && Sorted(ys, TextLeq) && Distinct(xs) && Distinct(ys)
    requires forall k :: k in xs <==> k in ys
    ensures xs == ys
  {
    assert forall i :: 0 <= i < |xs| ==> xs[i] in ys;
    assert forall i :: 0 <= i < |ys| ==> ys[i] in xs;
    if xs != [] && ys != [] {
      TextOrder();
      assert xs[0] in ys && ys[0] in xs;
      assert xs[0] == ys[0];
      forall k ensures k in xs[1..] <==> k in ys[1..] {
        assert k in xs[1..] <==> k in xs && k != xs[0];
        assert k in ys[1..] <==> k in ys && k != ys[0];
      }
      SortedKeysUnique(xs[1..], ys[1..]);
    }
  }

  lemma {:induction false} DistinctIsOnce(s: seq<Text>)
    ensures Distinct(s) <==> forall k :: multiset(s)[k] <= 1
  {
    if s != [] {
      var t := s[1..];
      assert s == [s[0]] + t;
      DistinctIsOnce(t);
      assert multiset(s) == multiset{s[0]} + multiset(t);
      if Distinct(s) {
        forall i, j | 0 <= i < j < |t| ensures t[i] != t[j] {
          assert s[i + 1] != s[j + 1];
        }
        assert s[0] !in t;
      }
      if forall k :: multiset(s)[k] <= 1 {
        forall k ensures multiset(t)[k] <= 1 {
          assert multiset(s)[k] <= 1;
        }
        assert multiset(s)[s[0]] <= 1;
        assert s[0] !in multiset(t);
      }
    }
  }

  lemma SortedKeysSound(ms: seq<Member>)
    ensures Sorted(SortedKeys(ms), TextLeq)
    ensures Distinct(Keys(ms)) ==> Distinct(SortedKeys(ms))
  {
    TextOrder();
    SortSorted(Keys(ms), TextLeq);
    DistinctIsOnce(Keys(ms));
    DistinctIsOnce(SortedKeys(ms));
  }

  // ---------------------------------------------------------------- unambiguity

  /** The first character gives away what kind of value follows; no value starts with a delimiter. */
  lemma FirstCharacter(j: Json)
    requires Plain(j)
    ensures var t := StableStringify(j);
            && t != []
            && (t[0] == 0x6E <==> j.Null?)
            && (t[0] == 0x74 || t[0] == 0x66 <==> j.Bool?)
            && (DigitChar(0) <= t[0] <= DigitChar(9) || t[0] == MINUS <==> j.Num?)
            && (t[0] == QUOTE <==> j.Str?)
            && (t[0] == OPEN_BRACKET <==> j.Arr?)
            && (t[0] == OPEN_BRACE <==> j.Obj?)
            && !Delimited(t)
  {
    if j.Num? {
      NumberTextChars(j.n);
    }
  }

  lemma SameConstructor(a: Json, u: Text, b: Json, v: Text)
    requires Plain(a) && Plain(b) && StableStringify(a) + u == StableStringify(b) + v
    ensures (a.Null? <==> b.Null?) && (a.Bool? <==> b.Bool?) && (a.Num? <==> b.Num?)
    ensures (a.Str? <==> b.Str?) && (a.Arr? <==> b.Arr?) && (a.Obj? <==> b.Obj?)
    ensures a.Bool? ==> a == b
  {
    FirstCharacter(a);
    FirstCharacter(b);
    SameHead(StableStringify(a), u, StableStringify(b), v);
  }

  ghost predicate Good(j: Json) {
    WellFormed(j) && Plain(j)
  }

  /** A canonical text determines its value, and where it ends in a longer text. */
  lemma {:induction false} Unambiguous(a: Json, u: Text, b: Json, v: Text)
    requires Good(a) && Good(b) && Delimited(u) && Delimited(v)
    requires StableStringify(a) + u == StableStringify(b) + v
    ensures SameStructure(a, b) && u == v
    decreases a, 0
  {
    SameConstructor(a, u, b, v);
    match a {
      case Null => Cancel(NULL_TEXT, u, v);
      case Bool(_) => Cancel(StableStringify(a), u, v);
      case Num(n) => NumberEnds(n, u, b.n, v);
      case Str(x) => QuoteUnique(x, u, b.s, v);
      case Arr(xs) =>
        Enclosed(OPEN_BRACKET, JoinItems(xs), CLOSE_BRACKET, u, JoinItems(b.items), v);
        ItemsUnambiguous(xs, u, b.items, v);
      case Obj(ms) =>
        var ns := b.members;
        Enclosed(OPEN_BRACE, JoinMembers(ms, SortedKeys(ms)), CLOSE_BRACE, u, JoinMembers(ns, SortedKeys(ns)), v);
        MembersUnambiguous(ms, SortedKeys(ms), u, ns, SortedKeys(ns), v);
        MembersMatch(ms, ns);
      case Undefined =>
    }
  }

  ghost predicate AllGood(items: seq<Json>) {
    forall i :: 0 <= i < |items| ==> Good(items[i])
  }

  lemma ItemsEmptyTogether(xs: seq<Json>, u: Text, ys: seq<Json>, v: Text)
    requires AllGood(xs) && AllGood(ys)
    requires JoinItems(xs) + ([CLOSE_BRACKET] + u) == JoinItems(ys) + ([CLOSE_BRACKET] + v)
    ensures xs == [] <==> ys == []
    ensures xs == [] ==> u == v
  {
    assert forall x: Text :: ([] + x) == x;
    if xs == [] && ys == [] {
      Cancel([CLOSE_BRACKET], u, v);
    } else if xs == [] {
      FirstCharacter(ys[0]);
      SameHead([CLOSE_BRACKET], u, JoinItems(ys), [CLOSE_BRACKET] + v);
    } else if ys == [] {
      FirstCharacter(xs[0]);
      SameHead([CLOSE_BRACKET], v, JoinItems(xs), [CLOSE_BRACKET] + u);
    }
  }

  function AfterItem(xs: seq<Json>, u: Text): Text
    requires xs != []
  {
    JoinMoreItems(xs[1..]) + ([CLOSE_BRACKET] + u)
  }

  lemma ItemsPeel(xs: seq<Json>, u: Text)
    requires xs != []
    ensures JoinItems(xs) + ([CLOSE_BRACKET] + u) == StableStringify(xs[0]) + AfterItem(xs, u)
    ensures Delimited(AfterItem(xs, u))
  {
  }

  lemma {:induction false} ItemsUnambiguous(xs: seq<Json>, u: Text, ys: seq<Json>, v: Text)
    requires AllGood(xs) && AllGood(ys)
    requires JoinItems(xs) + ([CLOSE_BRACKET] + u) == JoinItems(ys) + ([CLOSE_BRACKET] + v)
    ensures |xs| == |ys| && (forall i :: 0 <= i < |xs| ==> SameStructure(xs[i], ys[i])) && u == v
    decreases xs, 1
  {
    ItemsEmptyTogether(xs, u, ys, v);
    if xs != [] {
      ItemsPeel(xs, u);
      ItemsPeel(ys, v);
      Unambiguous(xs[0], AfterItem(xs, u), ys[0], AfterItem(ys, v));
      AfterElement(xs[1..] == [], JoinItems(xs[1..]), CLOSE_BRACKET, u, ys[1..] == [], JoinItems(ys[1..]), v);
      if xs[1..] != [] {
        ItemsUnambiguous(xs[1..], u, ys[1..], v);
      }
      forall i | 0 <= i < |xs| ensures SameStructure(xs[i], ys[i]) {
        if i > 0 {
          assert xs[i] == xs[1..][i - 1] && ys[i] == ys[1..][i - 1];
        }
      }
    }
  }

  ghost predicate GoodMembers(ms: seq<Member>) {
    forall i :: 0 <= i < |ms| ==> Good(ms[i].value)
  }

  ghost predicate SameAt(ms: seq<Member>, ns: seq<Member>, k: Text) {
    k in Keys(ms) && k in Keys(ns) && SameStructure(ms[IndexOf(ms, k)].value, ns[IndexOf(ns, k)].value)
  }

  ghost predicate KeysOf(ks: seq<Text>, ms: seq<Member>) {
    forall k :: k in ks ==> k in Keys(ms)
  }

  lemma MembersEmptyTogether(ms: seq<Member>, ks: seq<Text>, u: Text, ns: seq<Member>, ls: seq<Text>, v: Text)
    requires KeysOf(ks, ms) && KeysOf(ls, ns)
    requires JoinMembers(ms, ks) + ([CLOSE_BRACE] + u) == JoinMembers(ns, ls) + ([CLOSE_BRACE] + v)
    ensures ks == [] <==> ls == []
    ensures ks == [] ==> u == v
  {
    assert forall x: Text :: ([] + x) == x;
    assert ks != [] ==> JoinMembers(ms, ks)[0] == QUOTE;
    assert ls != [] ==> JoinMembers(ns, ls)[0] == QUOTE;
    if ks == [] && ls == [] {
      Cancel([CLOSE_BRACE], u, v);
    } else if ks == [] {
      SameHead([CLOSE_BRACE], u, JoinMembers(ns, ls), [CLOSE_BRACE] + v);
    } else if ls == [] {
      SameHead([CLOSE_BRACE], v, JoinMembers(ms, ks), [CLOSE_BRACE] + u);
    }
  }

  function AfterMember(ms: seq<Member>, ks: seq<Text>, u: Text): Text
    requires ks != [] && forall k :: k in ks ==> k in Keys(ms)
  {
    JoinMoreMembers(ms, ks[1..]) + ([CLOSE_BRACE] + u)
  }

  lemma MembersPeel(ms: seq<Member>, ks: seq<Text>, u: Text)
    requires KeysOf(ks, ms) && ks != []
    ensures JoinMembers(ms, ks) + ([CLOSE_BRACE] + u) == MemberText(ms, ks[0]) + AfterMember(ms, ks, u)
    ensures Delimited(AfterMember(ms, ks, u))
  {
  }

  lemma {:induction false} MembersUnambiguous(ms: seq<Member>, ks: seq<Text>, u: Text,
                                              ns: seq<Member>, ls: seq<Text>, v: Text)
    requires GoodMembers(ms) && GoodMembers(ns) && KeysOf(ks, ms) && KeysOf(ls, ns)
    requires JoinMembers(ms, ks) + ([CLOSE_BRACE] + u) == JoinMembers(ns, ls) + ([CLOSE_BRACE] + v)
    ensures ks == ls && (forall k :: k in ks ==> SameAt(ms, ns, k)) && u == v
    decreases ms, |ks| + 1
  {
    MembersEmptyTogether(ms, ks, u, ns, ls, v);
    if ks != [] {
      MembersPeel(ms, ks, u);
      MembersPeel(ns, ls, v);
      MemberUnambiguous(ms, ks[0], AfterMember(ms, ks, u), ns, ls[0], AfterMember(ns, ls, v));
      AfterElement(ks[1..] == [], JoinMembers(ms, ks[1..]), CLOSE_BRACE, u, ls[1..] == [], JoinMembers(ns, ls[1..]), v);
      if ks[1..] != [] {
        MembersUnambiguous(ms, ks[1..], u, ns, ls[1..], v);
      }
      assert ks == [ks[0]] + ks[1..] && ls == [ls[0]] + ls[1..];
    }
  }

  lemma {:induction false} MemberUnambiguous(ms: seq<Member>, k: Text, p: Text, ns: seq<Member>, l: Text, q: Text)
    requires GoodMembers(ms) && GoodMembers(ns) && k in Keys(ms) && l in Keys(ns)
    requires Delimited(p) && Delimited(q)
    requires MemberText(ms, k) + p == MemberText(ns, l) + q
    ensures k == l && SameAt(ms, ns, k) && p == q
    decreases ms, 0
  {
    var i, j := IndexOf(ms, k), IndexOf(ns, l);
    var x, y := StableStringify(ms[i].value), StableStringify(ns[j].value);
    assert MemberText(ms, k) + p == Quote(k) + ([COLON] + (x + p)) by { Regroup(Quote(k), COLON, x, p); }
    assert MemberText(ns, l) + q == Quote(l) + ([COLON] + (y + q)) by { Regroup(Quote(l), COLON, y, q); }
    QuoteUnique(k, [COLON] + (x + p), l, [COLON] + (y + q));
    SameFront(COLON, x + p, COLON, y + q);
    Unambiguous(ms[i].value, p, ns[j].value, q);
  }

  lemma MembersMatch(ms: seq<Member>, ns: seq<Member>)
    requires Distinct(Keys(ms)) && Distinct(Keys(ns))
    requires SortedKeys(ms) == SortedKeys(ns)
    requires forall k :: k in SortedKeys(ms) ==> SameAt(ms, ns, k)
    ensures SameStructure(Obj(ms), Obj(ns))
  {
    forall i, j | 0 <= i < |ms| && 0 <= j < |ns| && ms[i].key == ns[j].key
      ensures SameStructure(ms[i].value, ns[j].value)
    {
      var k := ms[i].key;
      assert Keys(ms)[i] == k && Keys(ns)[j] == k;
      assert k in SortedKeys(ms);
      IndexOfUnique(ms, i);
      IndexOfUnique(ns, j);
      assert SameAt(ms, ns, k);
    }
    assert forall k :: k in Keys(ms) <==> k in Keys(ns);
  }

  lemma IndexOfUnique(ms: seq<Member>, i: nat)
    requires i < |ms| && Distinct(Keys(ms))
    ensures Keys(ms)[i] == ms[i].key && IndexOf(ms, ms[i].key) == i
  {
    assert Keys(ms)[i] == ms[i].key;
    var n := IndexOf(ms, ms[i].key);
    assert Keys(ms)[n] == Keys(ms)[i];
  }

  // ---------------------------------------------------------------- the converse

  /** Reordering keys, at any depth, does not change the text. */
  lemma {:induction false} SameStructureSameText(a: Json, b: Json)
    requires WellFormed(a) && WellFormed(b) && SameStructure(a, b)
    ensures StableStringify(a) == StableStringify(b)
    decreases a, 0
  {
    if a.Arr? && b.Arr? {
      ItemsSameText(a.items, b.items);
    } else if a.Obj? && b.Obj? {
      var ms, ns := a.members, b.members;
      SortedKeysSound(ms);
      SortedKeysSound(ns);
      SortedKeysUnique(SortedKeys(ms), SortedKeys(ns));
      MembersSameText(ms, ns, SortedKeys(ms));
    }
  }

  lemma {:induction false} ItemsSameText(xs: seq<Json>, ys: seq<Json>)
    requires |xs| == |ys|
    requires forall i :: 0 <= i < |xs| ==> WellFormed(xs[i]) && WellFormed(ys[i]) && SameStructure(xs[i], ys[i])
    ensures JoinItems(xs) == JoinItems(ys)
    decreases xs, 1
  {
    if xs != [] {
      SameStructureSameText(xs[0], ys[0]);
      ItemsSameText(xs[1..], ys[1..]);
    }
  }

  lemma {:induction false} MembersSameText(ms: seq<Member>, ns: seq<Member>, ks: seq<Text>)
    requires forall i :: 0 <= i < |ms| ==> WellFormed(ms[i].value)
    requires forall i :: 0 <= i < |ns| ==> WellFormed(ns[i].value)
    requires forall k :: k in ks ==> k in Keys(ms) && k in Keys(ns)
    requires forall i, j :: 0 <= i < |ms| && 0 <= j < |ns| && ms[i].key == ns[j].key ==>
                              SameStructure(ms[i].value, ns[j].value)
    ensures JoinMembers(ms, ks) == JoinMembers(ns, ks)
    decreases ms, |ks|
  {
    if ks != [] {
      var i, j := IndexOf(ms, ks[0]), IndexOf(ns, ks[0]);
      assert SameStructure(ms[i].value, ns[j].value);
      SameStructureSameText(ms[i].value, ns[j].value);
      MembersSameText(ms, ns, ks[1..]);
    }
  }

  /**
   * On values a JSON text can spell, scopes are equal exactly when they agree up to the
   * order of object keys.
   */
  lemma ScopesEqualIsStructural(a: Json, b: Json)
    requires WellFormed(a) && WellFormed(b) && Plain(a) && Plain(b)
    ensures ScopesEqual(a, b) <==> SameStructure(a, b)
  {
    if ScopesEqual(a, b) {
      assert StableStringify(a) + [] == StableStringify(b) + [];
      Unambiguous(a, [], b, []);
    }
    if SameStructure(a, b) {
      SameStructureSameText(a, b);
    }
  }

  // ------------------------------------------------- every value: what the text forgets

  /** `undefined` and non-finite numbers print as null, negative zero as zero. */
  function Normalize(j: Json): (r: Json)
    ensures Plain(r)
    ensures r.Obj? <==> j.Obj?
    decreases j
  {
    match j
    case Undefined => Null
    case Num(n) => if n.NotFinite? then Null else if n.NegativeZero? then Num(Zero) else j
    case Arr(items) => Arr(seq(|items|, i requires 0 <= i < |items| => Normalize(items[i])))
    case Obj(ms) => Obj(NormalizeMembers(ms))
    case _ => j
  }

  function NormalizeMembers(ms: seq<Member>): (r: seq<Member>)
    ensures |r| == |ms|
    ensures forall i :: 0 <= i < |ms| ==> r[i].key == ms[i].key && Plain(r[i].value)
    decreases ms
  {
    seq(|ms|, i requires 0 <= i < |ms| => Member(ms[i].key, Normalize(ms[i].value)))
  }

  lemma {:induction false} NormalizeWellFormed(j: Json)
    requires WellFormed(j)
    ensures WellFormed(Normalize(j))
    decreases j
  {
    match j {
      case Arr(items) =>
        forall i | 0 <= i < |items| ensures WellFormed(Normalize(items[i])) {
          NormalizeWellFormed(items[i]);
        }
      case Obj(ms) =>
        forall i | 0 <= i < |ms| ensures WellFormed(Normalize(ms[i].value)) {
          NormalizeWellFormed(ms[i].value);
        }
        assert Keys(NormalizeMembers(ms)) == Keys(ms);
      case _ =>
    }
  }

  lemma {:induction false} NormalizeSameText(j: Json)
    ensures StableStringify(Normalize(j)) == StableStringify(j)
    decreases j, 0
  {
    match j {
      case Arr(items) =>
        NormalizeItemsSameText(items);
      case Obj(ms) =>
        assert Keys(NormalizeMembers(ms)) == Keys(ms);
        NormalizeMembersSameText(ms, SortedKeys(ms));
      case _ =>
    }
  }

  lemma {:induction false} NormalizeItemsSameText(items: seq<Json>)
    ensures JoinItems(seq(|items|, i requires 0 <= i < |items| => Normalize(items[i]))) == JoinItems(items)
    decreases items, 1
  {
    if items != [] {
      var ns := seq(|items|, i requires 0 <= i < |items| => Normalize(items[i]));
      var rest := items[1..];
      NormalizeSameText(items[0]);
      NormalizeItemsSameText(rest);
      assert ns[1..] == seq(|rest|, i requires 0 <= i < |rest| => Normalize(rest[i]));
    }
  }

  lemma {:induction false} NormalizeMembersSameText(ms: seq<Member>, ks: seq<Text>)
    requires forall k :: k in ks ==> k in Keys(ms)
    ensures Keys(NormalizeMembers(ms)) == Keys(ms)
    ensures JoinMembers(NormalizeMembers(ms), ks) == JoinMembers(ms, ks)
    decreases ms, |ks|
  {
    assert Keys(NormalizeMembers(ms)) == Keys(ms);
    if ks != [] {
      var i := IndexOf(ms, ks[0]);
      var n := IndexOf(NormalizeMembers(ms), ks[0]);
      assert n == i;
      NormalizeSameText(ms[i].value);
      NormalizeMembersSameText(ms, ks[1..]);
    }
  }

  /** For every value: exactly what two scopes must share to be taken for equal. */
  lemma ScopesEqualExactly(a: Json, b: Json)
    requires WellFormed(a) && WellFormed(b)
    ensures ScopesEqual(a, b) <==> SameStructure(Normalize(a), Normalize(b))
  {
    NormalizeSameText(a);
    NormalizeSameText(b);
    NormalizeWellFormed(a);
    NormalizeWellFormed(b);
    ScopesEqualIsStructural(Normalize(a), Normalize(b));
  }

  /** Without `Plain`, different scopes can be taken for equal. */
  lemma NotFiniteLooksNull()
    ensures var a, b := Arr([Num(NotFinite)]), Arr([Null]);
            WellFormed(a) && WellFormed(b) && ScopesEqual(a, b) && !SameStructure(a, b)
  {
    var a, b := Arr([Num(NotFinite)]), Arr([Null]);
    NormalizeSameText(a);
    assert Normalize(a).items == b.items;
    assert !SameStructure(a.items[0], b.items[0]);
  }

  /** On plain values, equality up to key order is an equivalence. */
  lemma SameStructureIsEquivalence(a: Json, b: Json, c: Json)
    requires WellFormed(a) && WellFormed(b) && WellFormed(c) && Plain(a) && Plain(b) && Plain(c)
    ensures SameStructure(a, a)
    ensures SameStructure(a, b) <==> SameStructure(b, a)
    ensures SameStructure(a, b) && SameStructure(b, c) ==> SameStructure(a, c)
  {
    ScopesEqualIsStructural(a, a);
    ScopesEqualIsStructural(a, b);
    ScopesEqualIsStructural(b, a);
    ScopesEqualIsStructural(b, c);
    ScopesEqualIsStructural(a, c);
  }

  /**
   * One approval never covers two scopes that JSON text can tell apart; and, while approved and
   * unexpired, it covers every scope it cannot tell from one it covers.
   */
  lemma OneApprovalOneScope(approval: ApprovalRecordView, x: Json, y: Json, now: int, later: int)
    requires WellFormed(approval.exactScope) && WellFormed(x) && WellFormed(y)
    requires ApprovalStillValid(approval, x, now)
    ensures ApprovalStillValid(approval, y, later) <==>
            SameStructure(Normalize(x), Normalize(y)) && (approval.expiresAt.Some? ==> later < approval.expiresAt.value)
    ensures IsScopeChangeMaterial(x, y) <==> !SameStructure(Normalize(x), Normalize(y))
  {
    ScopesEqualExactly(x, y);
  }
}
