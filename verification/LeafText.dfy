/**
 * The texts of numbers and of quoted strings can be read back: each determines its value,
 * and a quoted string determines where it ends.
 */
module LeafText {
  import opened Basics
  import opened JsonValues

  /** Two texts split at a character neither left part contains split in the same place. */
  lemma {:induction false} SplitUnique(c: CodeUnit, a: Text, x: Text, b: Text, y: Text)
    requires c !in a && c !in b
    requires a + [c] + x == b + [c] + y
    ensures a == b && x == y
  {
    var s, t := a + [c] + x, b + [c] + y;
    assert s[|a|] == c && t[|b|] == c;
    assert a == s[..|a|] && b == t[..|b|];
    assert x == s[|a| + 1..] && y == t[|b| + 1..];
    if |a| < |b| {
      assert false;
    } else if |b| < |a| {
      assert false;
    }
  }

  lemma DigitsInjective(ds: seq<Digit>, es: seq<Digit>)
    requires Digits(ds) == Digits(es)
    ensures ds == es
  {
    assert |Digits(ds)| == |ds| && |Digits(es)| == |es|;
    forall i | 0 <= i < |ds| ensures ds[i] == es[i] {
      assert Digits(ds)[i] == DigitChar(ds[i]);
      assert Digits(es)[i] == DigitChar(es[i]);
    }
  }

  lemma {:induction false} DecimalInjective(m: nat, n: nat)
    requires Decimal(m) == Decimal(n)
    ensures m == n
  {
    if m >= 10 && n >= 10 {
      var s, t := Decimal(m), Decimal(n);
      assert s[|s| - 1] == DigitChar(m % 10) && t[|t| - 1] == DigitChar(n % 10);
      assert s[..|s| - 1] == Decimal(m / 10) && t[..|t| - 1] == Decimal(n / 10);
      DecimalInjective(m / 10, n / 10);
    }
  }

  // ---------------------------------------------------------------- numbers

  /** Which of the four layouts of `Number::toString` applies. */
  datatype Layout = Whole | Split | Small | Scientific

  function LayoutOf(ds: seq<Digit>, point: int): Layout {
    if |ds| <= point <= 21 then Whole
    else if 0 < point <= 21 then Split
    else if -6 < point <= 0 then Small
    else Scientific
  }

  predicate Significant(ds: seq<Digit>) {
    ds != [] && ds[0] != 0 && ds[|ds| - 1] != 0
  }

  /** The layout shows in the text: its letters and its first character. */
  lemma LayoutShows(ds: seq<Digit>, point: int)
    requires Significant(ds)
    ensures var t := Magnitude(ds, point);
            && t != []
            && (LETTER_E in t <==> LayoutOf(ds, point).Scientific?)
            && (!LayoutOf(ds, point).Scientific? ==> (POINT in t <==> !LayoutOf(ds, point).Whole?))
            && (t[0] == DigitChar(0) <==> LayoutOf(ds, point).Small?)
            && DigitChar(0) <= t[0] <= DigitChar(9)
  {
    var t := Magnitude(ds, point);
    match LayoutOf(ds, point)
    case Whole =>
      assert t[0] == DigitChar(ds[0]);
    case Split =>
      assert t[0] == DigitChar(ds[..point][0]);
      assert t[point] == POINT;
    case Small =>
      assert t[1] == POINT;
    case Scientific =>
      assert t[0] == DigitChar(ds[0]);
      assert t[|Mantissa(ds)|] == LETTER_E;
  }

  lemma WholeInjective(ds: seq<Digit>, p: nat, es: seq<Digit>, q: nat)
    requires Significant(ds) && Significant(es) && |ds| <= p && |es| <= q
    requires Digits(ds) + Zeros(p - |ds|) == Digits(es) + Zeros(q - |es|)
    ensures ds == es && p == q
  {
    var s, t := Digits(ds) + Zeros(p - |ds|), Digits(es) + Zeros(q - |es|);
    assert |s| == p && |t| == q;
    assert Digits(ds) == s[..|ds|] && Digits(es) == t[..|es|];
    assert s[|ds| - 1] == DigitChar(ds[|ds| - 1]) && t[|es| - 1] == DigitChar(es[|es| - 1]);
    if |ds| < |es| {
      assert false;
    } else if |es| < |ds| {
      assert false;
    }
    DigitsInjective(ds, es);
  }

  lemma SplitLayoutInjective(ds: seq<Digit>, p: nat, es: seq<Digit>, q: nat)
    requires p <= |ds| && q <= |es|
    requires Digits(ds[..p]) + [POINT] + Digits(ds[p..]) == Digits(es[..q]) + [POINT] + Digits(es[q..])
    ensures ds == es && p == q
  {
    SplitUnique(POINT, Digits(ds[..p]), Digits(ds[p..]), Digits(es[..q]), Digits(es[q..]));
    DigitsInjective(ds[..p], es[..q]);
    DigitsInjective(ds[p..], es[q..]);
    assert |ds[..p]| == p && |es[..q]| == q;
    assert ds == ds[..p] + ds[p..] && es == es[..q] + es[q..];
  }

  lemma SmallInjective(ds: seq<Digit>, z: nat, es: seq<Digit>, y: nat)
    requires Significant(ds) && Significant(es)
    requires Zeros(z) + Digits(ds) == Zeros(y) + Digits(es)
    ensures ds == es && z == y
  {
    var s, t := Zeros(z) + Digits(ds), Zeros(y) + Digits(es);
    assert s[z] == DigitChar(ds[0]) && t[y] == DigitChar(es[0]);
    assert Digits(ds) == s[z..] && Digits(es) == t[y..];
    if z < y {
      assert false;
    } else if y < z {
      assert false;
    }
    DigitsInjective(ds, es);
  }

  lemma MantissaInjective(ds: seq<Digit>, es: seq<Digit>)
    requires ds != [] && es != [] && Mantissa(ds) == Mantissa(es)
    ensures ds == es
  {
    if |ds| == 1 || |es| == 1 {
      DigitsInjective(ds, es);
    } else {
      SplitLayoutInjective(ds, 1, es, 1);
    }
  }

  lemma ScientificInjective(ds: seq<Digit>, e: int, es: seq<Digit>, f: int)
    requires ds != [] && es != []
    requires Mantissa(ds) + [LETTER_E] + Exponent(e) == Mantissa(es) + [LETTER_E] + Exponent(f)
    ensures ds == es && e == f
  {
    SplitUnique(LETTER_E, Mantissa(ds), Exponent(e), Mantissa(es), Exponent(f));
    MantissaInjective(ds, es);
    ExponentInjective(e, f);
  }

  lemma ExponentInjective(e: int, f: int)
    requires Exponent(e) == Exponent(f)
    ensures e == f
  {
    assert Exponent(e)[1..] == Decimal(if e < 0 then -e else e);
    assert Exponent(f)[1..] == Decimal(if f < 0 then -f else f);
    DecimalInjective(if e < 0 then -e else e, if f < 0 then -f else f);
  }

  lemma MagnitudeInjective(ds: seq<Digit>, p: int, es: seq<Digit>, q: int)
    requires Significant(ds) && Significant(es)
    requires Magnitude(ds, p) == Magnitude(es, q)
    ensures ds == es && p == q
  {
    assert LayoutOf(ds, p) == LayoutOf(es, q) by {
      LayoutShows(ds, p);
      LayoutShows(es, q);
    }
    match LayoutOf(ds, p)
    case Whole => WholeCase(ds, p, es, q);
    case Split => SplitCase(ds, p, es, q);
    case Small => SmallCase(ds, p, es, q);
    case Scientific => ScientificCase(ds, p, es, q);
  }

  ghost predicate SameMagnitude(ds: seq<Digit>, p: int, es: seq<Digit>, q: int, l: Layout) {
    && Significant(ds) && Significant(es)
    && LayoutOf(ds, p) == LayoutOf(es, q) == l
    && Magnitude(ds, p) == Magnitude(es, q)
  }

  lemma WholeCase(ds: seq<Digit>, p: int, es: seq<Digit>, q: int)
    requires SameMagnitude(ds, p, es, q, Whole)
    ensures ds == es && p == q
  {
    WholeInjective(ds, p, es, q);
  }

  lemma SplitCase(ds: seq<Digit>, p: int, es: seq<Digit>, q: int)
    requires SameMagnitude(ds, p, es, q, Split)
    ensures ds == es && p == q
  {
    SplitLayoutInjective(ds, p, es, q);
  }

  lemma SmallCase(ds: seq<Digit>, p: int, es: seq<Digit>, q: int)
    requires SameMagnitude(ds, p, es, q, Small)
    ensures ds == es && p == q
  {
    SmallTail(ds, p);
    SmallTail(es, q);
    SmallInjective(ds, -p, es, -q);
  }

  lemma ScientificCase(ds: seq<Digit>, p: int, es: seq<Digit>, q: int)
    requires SameMagnitude(ds, p, es, q, Scientific)
    ensures ds == es && p == q
  {
    ScientificInjective(ds, p - 1, es, q - 1);
  }

  lemma SmallTail(ds: seq<Digit>, p: int)
    requires ds != [] && -6 < p <= 0
    ensures |Magnitude(ds, p)| >= 2 && Magnitude(ds, p)[2..] == Zeros(-p) + Digits(ds)
  {
    assert Magnitude(ds, p) == [DigitChar(0), POINT] + (Zeros(-p) + Digits(ds));
  }

  predicate Ordinary(n: Number) { n.Zero? || n.Finite? }

  /** Distinct numbers print distinctly. */
  lemma NumberTextInjective(m: Number, n: Number)
    requires Ordinary(m) && Ordinary(n)
    requires NumberText(m) == NumberText(n)
    ensures m == n
  {
    if m.Finite? {
      LayoutShows(m.digits, m.point);
    }
    if n.Finite? {
      LayoutShows(n.digits, n.point);
    }
    if m.Finite? && n.Finite? {
      var s, t := Magnitude(m.digits, m.point), Magnitude(n.digits, n.point);
      assert NumberText(m)[0] == if m.negative then MINUS else s[0];
      assert NumberText(n)[0] == if n.negative then MINUS else t[0];
      assert s == NumberText(m)[if m.negative then 1 else 0..];
      assert t == NumberText(n)[if n.negative then 1 else 0..];
      MagnitudeInjective(m.digits, m.point, n.digits, n.point);
    } else if m.Finite? || n.Finite? {
      var f := if m.Finite? then m else n;
      ZeroIsAlone(f);
    }
  }

  lemma ZeroIsAlone(n: Number)
    requires n.Finite?
    ensures NumberText(n) != [DigitChar(0)]
  {
    LayoutShows(n.digits, n.point);
    var t := Magnitude(n.digits, n.point);
    if n.negative {
      assert NumberText(n)[0] == MINUS;
    } else {
      assert NumberText(n) == t;
      if LayoutOf(n.digits, n.point).Small? {
        assert |t| >= 2;
      }
    }
  }

  predicate NumberChar(c: CodeUnit) {
    DigitChar(0) <= c <= DigitChar(9) || c == POINT || c == MINUS || c == PLUS || c == LETTER_E
  }

  lemma NumberTextChars(n: Number)
    requires Ordinary(n)
    ensures NumberText(n) != []
    ensures forall i :: 0 <= i < |NumberText(n)| ==> NumberChar(NumberText(n)[i])
    ensures DigitChar(0) <= NumberText(n)[0] <= DigitChar(9) || NumberText(n)[0] == MINUS
  {
    if n.Finite? {
      LayoutShows(n.digits, n.point);
      MagnitudeChars(n.digits, n.point);
    }
  }

  lemma MagnitudeChars(ds: seq<Digit>, point: int)
    requires ds != []
    ensures forall i :: 0 <= i < |Magnitude(ds, point)| ==> NumberChar(Magnitude(ds, point)[i])
  {
    match LayoutOf(ds, point)
    case Scientific =>
      ScientificChars(Mantissa(ds), Exponent(point - 1));
    case _ =>
  }

  lemma ScientificChars(m: Text, e: Text)
    requires forall i :: 0 <= i < |m| ==> NumberChar(m[i])
    requires forall i :: 0 <= i < |e| ==> NumberChar(e[i])
    ensures forall i :: 0 <= i < |m + [LETTER_E] + e| ==> NumberChar((m + [LETTER_E] + e)[i])
  {
  }

  predicate EndsNumber(u: Text) { u == [] || !NumberChar(u[0]) }

  /** Numbers are not prefix-free; the character after one ends it. */
  lemma NumberEnds(m: Number, u: Text, n: Number, v: Text)
    requires Ordinary(m) && Ordinary(n) && EndsNumber(u) && EndsNumber(v)
    requires NumberText(m) + u == NumberText(n) + v
    ensures m == n && u == v
  {
    NumberTextChars(m);
    NumberTextChars(n);
    var s, t := NumberText(m), NumberText(n);
    assert s == (s + u)[..|s|] && t == (t + v)[..|t|];
    assert u == (s + u)[|s|..] && v == (t + v)[|t|..];
    assert u != [] ==> (s + u)[|s|] == u[0];
    assert v != [] ==> (t + v)[|t|] == v[0];
    if |s| < |t| {
      assert false;
    } else if |t| < |s| {
      assert false;
    }
    NumberTextInjective(m, n);
  }

  // ---------------------------------------------------------------- strings

  function HexValue(c: CodeUnit): int {
    if c < 0x3A then c - 0x30 else c - 0x61 + 10
  }

  lemma UnicodeEscapeInjective(c: CodeUnit, d: CodeUnit)
    requires UnicodeEscape(c) == UnicodeEscape(d)
    ensures c == d
  {
    var s, t := UnicodeEscape(c), UnicodeEscape(d);
    assert HexValue(s[2]) == c / 0x1000 && HexValue(t[2]) == d / 0x1000;
    assert HexValue(s[3]) == c / 0x100 % 0x10 && HexValue(t[3]) == d / 0x100 % 0x10;
    assert HexValue(s[4]) == c / 0x10 % 0x10 && HexValue(t[4]) == d / 0x10 % 0x10;
    assert HexValue(s[5]) == c % 0x10 && HexValue(t[5]) == d % 0x10;
    Nibbles(c);
    Nibbles(d);
  }

  lemma Nibbles(c: CodeUnit)
    ensures c == c / 0x1000 * 0x1000 + c / 0x100 % 0x10 * 0x100 + c / 0x10 % 0x10 * 0x10 + c % 0x10
  {
    assert c / 0x100 / 0x10 == c / 0x1000;
    assert c / 0x10 / 0x10 == c / 0x100;
  }

  /** The escape of one code unit, read off the front of a text. */
  lemma EscapeUnique(c: CodeUnit, u: Text, d: CodeUnit, v: Text)
    requires Escape(c) + u == Escape(d) + v
    ensures c == d && u == v
  {
    var s, t := Escape(c) + u, Escape(d) + v;
    assert s[0] == Escape(c)[0] && t[0] == Escape(d)[0];
    if s[0] == BACKSLASH {
      assert s[1] == Escape(c)[1] && t[1] == Escape(d)[1];
      if s[1] == LETTER_U {
        assert Escape(c) == s[..6] && Escape(d) == t[..6];
        UnicodeEscapeInjective(c, d);
      }
    }
    assert |Escape(c)| == |Escape(d)|;
    assert u == s[|Escape(c)|..] && v == t[|Escape(d)|..];
  }

  /** A text in quotes says where it ends and what it quotes. */
  lemma {:induction false} QuoteBodyUnique(s: Text, u: Text, t: Text, v: Text)
    requires QuoteBody(s) + [QUOTE] + u == QuoteBody(t) + [QUOTE] + v
    ensures s == t && u == v
    decreases |s|
  {
    FirstOfBody(s, u);
    FirstOfBody(t, v);
    if s == [] || t == [] {
      assert QuoteBody(s) == [] && QuoteBody(t) == [];
      assert u == (QuoteBody(s) + [QUOTE] + u)[1..] && v == (QuoteBody(t) + [QUOTE] + v)[1..];
    } else if StartsWithPair(s) {
      PairFirst(s, u);
      PairFirst(t, v);
      QuoteBodyUnique(s[2..], u, t[2..], v);
      assert s == s[..2] + s[2..] && t == t[..2] + t[2..];
    } else {
      SingleFirst(s, u);
      SingleFirst(t, v);
      EscapeUnique(s[0], QuoteBody(s[1..]) + [QUOTE] + u, t[0], QuoteBody(t[1..]) + [QUOTE] + v);
      QuoteBodyUnique(s[1..], u, t[1..], v);
      assert s == [s[0]] + s[1..] && t == [t[0]] + t[1..];
    }
  }

  lemma PairFirst(s: Text, u: Text)
    requires StartsWithPair(s)
    ensures var x := QuoteBody(s) + [QUOTE] + u;
            |x| >= 2 && x[..2] == s[..2] && x[2..] == QuoteBody(s[2..]) + [QUOTE] + u
  {
  }

  lemma SingleFirst(s: Text, u: Text)
    requires s != [] && !StartsWithPair(s)
    ensures QuoteBody(s) + [QUOTE] + u == Escape(s[0]) + (QuoteBody(s[1..]) + [QUOTE] + u)
  {
  }

  /** The first character tells an end quote, a surrogate pair and a single code unit apart. */
  lemma FirstOfBody(s: Text, u: Text)
    ensures var x := QuoteBody(s) + [QUOTE] + u;
            && (x[0] == QUOTE <==> s == [])
            && (LeadSurrogate(x[0]) <==> StartsWithPair(s))
  {
    var x := QuoteBody(s) + [QUOTE] + u;
    if s == [] {
      assert x[0] == QUOTE;
    } else if StartsWithPair(s) {
      assert x[0] == s[0];
    } else {
      assert x[0] == Escape(s[0])[0];
    }
  }

  lemma QuoteUnique(s: Text, u: Text, t: Text, v: Text)
    requires Quote(s) + u == Quote(t) + v
    ensures s == t && u == v
  {
    assert QuoteBody(s) + [QUOTE] + u == (Quote(s) + u)[1..];
    assert QuoteBody(t) + [QUOTE] + v == (Quote(t) + v)[1..];
    QuoteBodyUnique(s, u, t, v);
  }

  // ---------------------------------------------------------------- pieces of longer texts

  predicate Delimited(u: Text) {
    u == [] || u[0] == COMMA || u[0] == CLOSE_BRACKET || u[0] == CLOSE_BRACE
  }

  lemma SameFront(c: CodeUnit, x: Text, d: CodeUnit, y: Text)
    requires [c] + x == [d] + y
    ensures c == d && x == y
  {
    assert c == ([c] + x)[0] && d == ([d] + y)[0];
    assert x == ([c] + x)[1..] && y == ([d] + y)[1..];
  }

  lemma Enclosed(open: CodeUnit, x: Text, close: CodeUnit, u: Text, y: Text, v: Text)
    requires [open] + x + [close] + u == [open] + y + [close] + v
    ensures x + ([close] + u) == y + ([close] + v)
  {
    assert [open] + x + [close] + u == [open] + (x + ([close] + u));
    assert [open] + y + [close] + v == [open] + (y + ([close] + v));
    SameFront(open, x + ([close] + u), open, y + ([close] + v));
  }

  lemma SameHead(s: Text, u: Text, t: Text, v: Text)
    requires s + u == t + v && s != [] && t != []
    ensures s[0] == t[0]
  {
    assert s[0] == (s + u)[0] && t[0] == (t + v)[0];
  }

  lemma Cancel(s: Text, u: Text, v: Text)
    requires s + u == s + v
    ensures u == v
  {
    assert u == (s + u)[|s|..] && v == (s + v)[|s|..];
  }

  /** After an element: either the closing character, or a comma and the rest. */
  lemma AfterElement(empty: bool, x: Text, close: CodeUnit, u: Text, empty': bool, y: Text, v: Text)
    requires close != COMMA
    requires var more := if empty then [] else [COMMA] + x;
             var more' := if empty' then [] else [COMMA] + y;
             more + ([close] + u) == more' + ([close] + v)
    ensures empty == empty'
    ensures if empty then u == v else x + ([close] + u) == y + ([close] + v)
  {
    var more := if empty then [] else [COMMA] + x;
    var more' := if empty' then [] else [COMMA] + y;
    assert more + ([close] + u) == if empty then [close] + u else [COMMA] + (x + ([close] + u));
    assert more' + ([close] + v) == if empty' then [close] + v else [COMMA] + (y + ([close] + v));
    SameFront(if empty then close else COMMA, if empty then u else x + ([close] + u),
              if empty' then close else COMMA, if empty' then v else y + ([close] + v));
  }

  lemma Regroup(a: Text, c: CodeUnit, b: Text, u: Text)
    ensures a + [c] + b + u == a + ([c] + (b + u))
  {
  }
}
