/**
 * `JSON.stringify` (section 25.5.2 of ECMA-262) on whole values, and what `JSON.parse` can make
 * of its text: the one value that prints the same.
 */
module JsonText {
  import opened Basics
  import opened JsonValues
  import opened LeafText

  /** The text of a value; as an array element, `undefined` prints as null. */
  function Stringify(j: Json): Text
    decreases j, 0
  {
    match j
    case Undefined => NULL_TEXT
    case Null => NULL_TEXT
    case Bool(b) => if b then TRUE_TEXT else FALSE_TEXT
    case Num(n) => NumberText(n)
    case Str(s) => Quote(s)
    case Arr(items) => [OPEN_BRACKET] + ItemsText(items, true) + [CLOSE_BRACKET]
    case Obj(ms) => [OPEN_BRACE] + MembersText(ms, true) + [CLOSE_BRACE]
  }

  function Separator(first: bool): Text {
    if first then [] else [COMMA]
  }

  function ItemsText(items: seq<Json>, first: bool): Text
    decreases items, 1
  {
    if items == [] then [] else Separator(first) + Stringify(items[0]) + ItemsText(items[1..], false)
  }

  /** Members in insertion order; those that are `undefined` are skipped. */
  function MembersText(ms: seq<Member>, first: bool): Text
    decreases ms, 1
  {
    if ms == [] then []
    else if ms[0].value.Undefined? then MembersText(ms[1..], first)
    else Separator(first) + Quote(ms[0].key) + [COLON] + Stringify(ms[0].value) + MembersText(ms[1..], false)
  }

  // ---------------------------------------------------------------- the text determines a plain value

  lemma FirstCharacter(j: Json)
    requires Plain(j)
    ensures var t := Stringify(j);
            && t != []
            && (t[0] == 0x6E <==> j.Null?)
            && (t[0] == 0x74 || t[0] == 0x66 <==> j.Bool?)
            && (DigitChar(0) <= t[0] <= DigitChar(9) || t[0] == MINUS <==> j.Num?)
            && (t[0] == QUOTE <==> j.Str?)
            && (t[0] == OPEN_BRACKET <==> j.Arr?)
            && (t[0] == OPEN_BRACE <==> j.Obj?)
            && !Delimited(t)
  {
    if j.Num? {
      NumberTextChars(j.n);
    }
  }

  lemma SameConstructor(a: Json, u: Text, b: Json, v: Text)
    requires Plain(a) && Plain(b) && Stringify(a) + u == Stringify(b) + v
    ensures (a.Null? <==> b.Null?) && (a.Bool? <==> b.Bool?) && (a.Num? <==> b.Num?)
    ensures (a.Str? <==> b.Str?) && (a.Arr? <==> b.Arr?) && (a.Obj? <==> b.Obj?)
    ensures a.Bool? ==> a == b
  {
    FirstCharacter(a);
    FirstCharacter(b);
    SameHead(Stringify(a), u, Stringify(b), v);
  }

  /** A text determines the plain value it is of, and where it ends in a longer text. */
  lemma {:induction false} StringifyUnique(a: Json, u: Text, b: Json, v: Text)
    requires Plain(a) && Plain(b) && Delimited(u) && Delimited(v)
    requires Stringify(a) + u == Stringify(b) + v
    ensures a == b && u == v
    decreases a, 0
  {
    SameConstructor(a, u, b, v);
    match a {
      case Null => Cancel(NULL_TEXT, u, v);
      case Bool(_) => Cancel(Stringify(a), u, v);
      case Num(n) => NumberEnds(n, u, b.n, v);
      case Str(x) => QuoteUnique(x, u, b.s, v);
      case Arr(xs) =>
        Enclosed(OPEN_BRACKET, ItemsText(xs, true), CLOSE_BRACKET, u, ItemsText(b.items, true), v);
        ItemsUnique(xs, u, b.items, v, true);
      case Obj(ms) =>
        Enclosed(OPEN_BRACE, MembersText(ms, true), CLOSE_BRACE, u, MembersText(b.members, true), v);
        MembersUnique(ms, u, b.members, v, true);
      case Undefined =>
    }
  }

  ghost predicate PlainItems(items: seq<Json>) {
    forall i :: 0 <= i < |items| ==> Plain(items[i])
  }

  ghost predicate PlainMembers(ms: seq<Member>) {
    forall i :: 0 <= i < |ms| ==> Plain(ms[i].value)
  }

  lemma ItemsPeel(xs: seq<Json>, u: Text, first: bool)
    requires xs != []
    ensures ItemsText(xs, first) + ([CLOSE_BRACKET] + u)
            == Separator(first) + (Stringify(xs[0]) + (ItemsText(xs[1..], false) + ([CLOSE_BRACKET] + u)))
  {
    Regroup4(Separator(first), Stringify(xs[0]), ItemsText(xs[1..], false), [CLOSE_BRACKET] + u);
  }

  lemma Regroup4(a: Text, b: Text, c: Text, d: Text)
    ensures a + b + c + d == a + (b + (c + d))
  {
  }

  lemma MoreItemsDelimited(xs: seq<Json>, u: Text)
    ensures Delimited(ItemsText(xs, false) + ([CLOSE_BRACKET] + u))
  {
    if xs != [] {
      ItemsPeel(xs, u, false);
    }
  }

  /** What begins with an element or a member does not begin with a closing character. */
  lemma OpensDifferently(first: bool, x: Text, rest: Text, close: CodeUnit, u: Text)
    requires x != [] && !Delimited(x) && Delimited([close]) && close != COMMA
    ensures Separator(first) + (x + rest) != [close] + u
  {
    assert (Separator(first) + (x + rest))[0] == if first then x[0] else COMMA;
    assert ([close] + u)[0] == close;
  }

  lemma ItemsEmptyTogether(xs: seq<Json>, u: Text, ys: seq<Json>, v: Text, first: bool)
    requires PlainItems(xs) && PlainItems(ys)
    requires ItemsText(xs, first) + ([CLOSE_BRACKET] + u) == ItemsText(ys, first) + ([CLOSE_BRACKET] + v)
    ensures xs == [] <==> ys == []
    ensures xs == [] ==> u == v
  {
    assert [] + ([CLOSE_BRACKET] + u) == [CLOSE_BRACKET] + u && [] + ([CLOSE_BRACKET] + v) == [CLOSE_BRACKET] + v;
    if xs != [] {
      ItemsPeel(xs, u, first);
      FirstCharacter(xs[0]);
      OpensDifferently(first, Stringify(xs[0]), ItemsText(xs[1..], false) + ([CLOSE_BRACKET] + u), CLOSE_BRACKET, v);
    } else if ys != [] {
      ItemsPeel(ys, v, first);
      FirstCharacter(ys[0]);
      OpensDifferently(first, Stringify(ys[0]), ItemsText(ys[1..], false) + ([CLOSE_BRACKET] + v), CLOSE_BRACKET, u);
    } else {
      Cancel([CLOSE_BRACKET], u, v);
    }
  }

  lemma {:induction false} ItemsUnique(xs: seq<Json>, u: Text, ys: seq<Json>, v: Text, first: bool)
    requires PlainItems(xs) && PlainItems(ys)
    requires ItemsText(xs, first) + ([CLOSE_BRACKET] + u) == ItemsText(ys, first) + ([CLOSE_BRACKET] + v)
    ensures xs == ys && u == v
    decreases xs, 1
  {
    ItemsEmptyTogether(xs, u, ys, v, first);
    if xs != [] {
      var a, b := ItemsText(xs[1..], false) + ([CLOSE_BRACKET] + u), ItemsText(ys[1..], false) + ([CLOSE_BRACKET] + v);
      ItemsPeel(xs, u, first);
      ItemsPeel(ys, v, first);
      Cancel(Separator(first), Stringify(xs[0]) + a, Stringify(ys[0]) + b);
      MoreItemsDelimited(xs[1..], u);
      MoreItemsDelimited(ys[1..], v);
      StringifyUnique(xs[0], a, ys[0], b);
      ItemsUnique(xs[1..], u, ys[1..], v, false);
      assert xs == [xs[0]] + xs[1..] && ys == [ys[0]] + ys[1..];
    }
  }

  /** A member and all that follows it. */
  function MemberAnd(m: Member, rest: Text): Text {
    Quote(m.key) + ([COLON] + (Stringify(m.value) + rest))
  }

  lemma MembersPeel(ms: seq<Member>, u: Text, first: bool)
    requires ms != [] && !ms[0].value.Undefined?
    ensures MembersText(ms, first) + ([CLOSE_BRACE] + u)
            == Separator(first) + MemberAnd(ms[0], MembersText(ms[1..], false) + ([CLOSE_BRACE] + u))
  {
    Regroup6(Separator(first), Quote(ms[0].key), [COLON], Stringify(ms[0].value), MembersText(ms[1..], false), [CLOSE_BRACE] + u);
  }

  lemma Regroup6(a: Text, b: Text, c: Text, d: Text, e: Text, f: Text)
    ensures a + b + c + d + e + f == a + (b + (c + (d + (e + f))))
  {
    Regroup4(a + b + c, d, e, f);
    Regroup4(a, b, c, d + (e + f));
  }

  lemma MoreMembersDelimited(ms: seq<Member>, u: Text)
    requires PlainMembers(ms)
    ensures Delimited(MembersText(ms, false) + ([CLOSE_BRACE] + u))
  {
    if ms != [] {
      MembersPeel(ms, u, false);
    }
  }

  lemma MembersEmptyTogether(ms: seq<Member>, u: Text, ns: seq<Member>, v: Text, first: bool)
    requires PlainMembers(ms) && PlainMembers(ns)
    requires MembersText(ms, first) + ([CLOSE_BRACE] + u) == MembersText(ns, first) + ([CLOSE_BRACE] + v)
    ensures ms == [] <==> ns == []
    ensures ms == [] ==> u == v
  {
    assert [] + ([CLOSE_BRACE] + u) == [CLOSE_BRACE] + u && [] + ([CLOSE_BRACE] + v) == [CLOSE_BRACE] + v;
    if ms != [] {
      MembersPeel(ms, u, first);
      OpensDifferently(first, Quote(ms[0].key), MemberRest(ms, u), CLOSE_BRACE, v);
    } else if ns != [] {
      MembersPeel(ns, v, first);
      OpensDifferently(first, Quote(ns[0].key), MemberRest(ns, v), CLOSE_BRACE, u);
    } else {
      Cancel([CLOSE_BRACE], u, v);
    }
  }

  /** What follows the key of the first member. */
  function MemberRest(ms: seq<Member>, u: Text): Text
    requires ms != []
  {
    [COLON] + (Stringify(ms[0].value) + (MembersText(ms[1..], false) + ([CLOSE_BRACE] + u)))
  }

  lemma {:induction false} MembersUnique(ms: seq<Member>, u: Text, ns: seq<Member>, v: Text, first: bool)
    requires PlainMembers(ms) && PlainMembers(ns)
    requires MembersText(ms, first) + ([CLOSE_BRACE] + u) == MembersText(ns, first) + ([CLOSE_BRACE] + v)
    ensures ms == ns && u == v
    decreases ms, 1
  {
    MembersEmptyTogether(ms, u, ns, v, first);
    if ms != [] {
      var a, b := MembersText(ms[1..], false) + ([CLOSE_BRACE] + u), MembersText(ns[1..], false) + ([CLOSE_BRACE] + v);
      MembersPeel(ms, u, first);
      MembersPeel(ns, v, first);
      Cancel(Separator(first), MemberAnd(ms[0], a), MemberAnd(ns[0], b));
      MoreMembersDelimited(ms[1..], u);
      MoreMembersDelimited(ns[1..], v);
      MemberUnique(ms[0], a, ns[0], b);
      MembersUnique(ms[1..], u, ns[1..], v, false);
      assert ms == [ms[0]] + ms[1..] && ns == [ns[0]] + ns[1..];
    }
  }

  lemma {:induction false} MemberUnique(m: Member, a: Text, n: Member, b: Text)
    requires Plain(m.value) && Plain(n.value) && Delimited(a) && Delimited(b)
    requires MemberAnd(m, a) == MemberAnd(n, b)
    ensures m == n && a == b
    decreases m, 1
  {
    QuoteUnique(m.key, [COLON] + (Stringify(m.value) + a), n.key, [COLON] + (Stringify(n.value) + b));
    SameFront(COLON, Stringify(m.value) + a, COLON, Stringify(n.value) + b);
    StringifyUnique(m.value, a, n.value, b);
  }

  // ---------------------------------------------------------------- JSON.stringify, then JSON.parse

  /**
   * What a value is after `JSON.stringify` and `JSON.parse` (sections 25.5.2 and 25.5.1 of
   * ECMA-262): undefined members vanish, undefined elements and numbers that are not finite
   * become null, negative zero loses its sign.  `Undefined` alone has no text.
   */
  function Wire(j: Json): Json {
    match j
    case Num(NotFinite) => Null
    case Num(NegativeZero) => Num(Zero)
    case Arr(items) => Arr(WireItems(items))
    case Obj(ms) => Obj(WireMembers(ms))
    case _ => j
  }

  function WireItems(items: seq<Json>): (r: seq<Json>)
    ensures |r| == |items|
  {
    if items == [] then []
    else [if items[0].Undefined? then Null else Wire(items[0])] + WireItems(items[1..])
  }

  function WireMembers(ms: seq<Member>): (r: seq<Member>)
    ensures |r| <= |ms|
  {
    if ms == [] then []
    else (if ms[0].value.Undefined? then [] else [Member(ms[0].key, Wire(ms[0].value))]) + WireMembers(ms[1..])
  }

  /** The trip changes nothing exactly when the value is plain JSON. */
  lemma {:induction false} WireIsIdentity(j: Json)
    ensures Wire(j) == j <==> Plain(j) || j.Undefined?
    decreases j
  {
    match j
    case Arr(items) => WireItemsIdentity(items);
    case Obj(ms) => WireMembersIdentity(ms);
    case _ =>
  }

  lemma {:induction false} WireItemsIdentity(items: seq<Json>)
    ensures WireItems(items) == items <==> forall i :: 0 <= i < |items| ==> Plain(items[i])
    decreases items
  {
    if items != [] {
      WireIsIdentity(items[0]);
      WireItemsIdentity(items[1..]);
      assert items == [items[0]] + items[1..];
    }
  }

  lemma {:induction false} WireMembersIdentity(ms: seq<Member>)
    ensures WireMembers(ms) == ms <==> forall i :: 0 <= i < |ms| ==> Plain(ms[i].value)
    decreases ms
  {
    if ms != [] {
      WireIsIdentity(ms[0].value);
      WireMembersIdentity(ms[1..]);
      assert ms == [ms[0]] + ms[1..];
      if WireMembers(ms) == ms {
        assert !ms[0].value.Undefined?;
        assert WireMembers(ms)[1..] == WireMembers(ms[1..]);
      }
    }
  }

  /** Whatever comes off the wire is plain JSON. */
  lemma {:induction false} WireIsPlain(j: Json)
    requires !j.Undefined?
    ensures Plain(Wire(j))
    decreases j
  {
    match j
    case Arr(items) => WireItemsPlain(items);
    case Obj(ms) => WireMembersPlain(ms);
    case _ =>
  }

  lemma {:induction false} WireItemsPlain(items: seq<Json>)
    ensures forall i :: 0 <= i < |items| ==> Plain(WireItems(items)[i])
    decreases items
  {
    if items != [] {
      if !items[0].Undefined? {
        WireIsPlain(items[0]);
      }
      WireItemsPlain(items[1..]);
    }
  }

  lemma {:induction false} WireMembersPlain(ms: seq<Member>)
    ensures forall i :: 0 <= i < |WireMembers(ms)| ==> Plain(WireMembers(ms)[i].value)
    decreases ms
  {
    if ms != [] {
      if !ms[0].value.Undefined? {
        WireIsPlain(ms[0].value);
      }
      WireMembersPlain(ms[1..]);
    }
  }

  // ---------------------------------------------------------------- why that is the trip

  lemma {:induction false} WireSameText(j: Json)
    ensures Stringify(Wire(j)) == Stringify(j)
    decreases j, 0
  {
    match j
    case Arr(items) => WireItemsSameText(items, true);
    case Obj(ms) => WireMembersSameText(ms, true);
    case _ =>
  }

  lemma {:induction false} WireItemsSameText(items: seq<Json>, first: bool)
    ensures ItemsText(WireItems(items), first) == ItemsText(items, first)
    decreases items, 1
  {
    if items != [] {
      WireSameText(items[0]);
      WireItemsSameText(items[1..], false);
      assert WireItems(items)[1..] == WireItems(items[1..]);
    }
  }

  lemma {:induction false} WireMembersSameText(ms: seq<Member>, first: bool)
    ensures MembersText(WireMembers(ms), first) == MembersText(ms, first)
    decreases ms, 1
  {
    if ms != [] {
      if ms[0].value.Undefined? {
        assert WireMembers(ms) == WireMembers(ms[1..]);
        WireMembersSameText(ms[1..], first);
      } else {
        WireSameText(ms[0].value);
        WireIsPlain(ms[0].value);
        WireMembersSameText(ms[1..], false);
        assert WireMembers(ms)[1..] == WireMembers(ms[1..]);
      }
    }
  }

  /**
   * A parser that reads a text back into a plain value of that text has no choice: of all plain
   * values, exactly `Wire(j)` prints as `j` does.
   */
  lemma WireIsWhatTheTextSays(j: Json, v: Json)
    requires !j.Undefined? && Plain(v)
    ensures Plain(Wire(j))
    ensures Stringify(v) == Stringify(j) <==> v == Wire(j)
  {
    WireIsPlain(j);
    WireSameText(j);
    if Stringify(v) == Stringify(j) {
      assert Stringify(v) + [] == Stringify(Wire(j)) + [];
      StringifyUnique(v, [], Wire(j), []);
    }
  }
}
