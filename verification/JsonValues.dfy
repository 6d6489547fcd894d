/**
 * JavaScript values that can stand in a scope or a job payload, and their canonical text.
 *
 * A number is what `Number::toString` (section 6.1.6.1.20 of ECMA-262) sees of it: a sign,
 * the shortest decimal digits d1...dk, and the position of the decimal point, so the value is
 * 0.d1...dk * 10^point.  An object is its own enumerable members in insertion order.
 */
module JsonValues {
  import opened Basics

  type Digit = d: int | 0 <= d < 10

  datatype RawNumber =
    | Zero
    | NegativeZero
    | NotFinite
    | Finite(negative: bool, digits: seq<Digit>, point: int)

  predicate Canonical(n: RawNumber) {
    n.Finite? ==> n.digits != [] && n.digits[0] != 0 && n.digits[|n.digits| - 1] != 0
  }

  type Number = n: RawNumber | Canonical(n) witness Zero

  datatype Json =
    | Undefined
    | Null
    | Bool(b: bool)
    | Num(n: Number)
    | Str(s: Text)
    | Arr(items: seq<Json>)
    | Obj(members: seq<Member>)

  datatype Member = Member(key: Text, value: Json)

  function Keys(ms: seq<Member>): (ks: seq<Text>)
    ensures |ks| == |ms|
    ensures forall i :: 0 <= i < |ms| ==> ks[i] == ms[i].key
  {
    seq(|ms|, i requires 0 <= i < |ms| => ms[i].key)
  }

  predicate Distinct<T(==)>(s: seq<T>) {
    forall i, j :: 0 <= i < j < |s| ==> s[i] != s[j]
  }

  /** The property accessor `obj[key]`: the position of the member, if there is one. */
  function IndexOf(ms: seq<Member>, key: Text): (i: nat)
    requires key in Keys(ms)
    ensures i < |ms| && ms[i].key == key
    ensures forall j :: 0 <= j < i ==> ms[j].key != key
  {
    if ms[0].key == key then 0
    else
      assert key in Keys(ms[1..]) by {
        var i :| 0 <= i < |ms| && Keys(ms)[i] == key;
        assert Keys(ms[1..])[i - 1] == key;
      }
      1 + IndexOf(ms[1..], key)
  }

  /** `obj[key]`, `undefined` when the member is missing. */
  function Get(ms: seq<Member>, key: Text): Json {
    if key in Keys(ms) then ms[IndexOf(ms, key)].value else Undefined
  }

  /** No object has the same key twice: true of every JavaScript object. */
  predicate WellFormed(j: Json) {
    match j
    case Arr(items) => forall i :: 0 <= i < |items| ==> WellFormed(items[i])
    case Obj(ms) => Distinct(Keys(ms)) && forall i :: 0 <= i < |ms| ==> WellFormed(ms[i].value)
    case _ => true
  }

  /** Values a JSON text can spell out: nothing undefined, not finite, or negative zero. */
  predicate Plain(j: Json) {
    match j
    case Undefined => false
    case Num(n) => !n.NegativeZero? && !n.NotFinite?
    case Arr(items) => forall i :: 0 <= i < |items| ==> Plain(items[i])
    case Obj(ms) => forall i :: 0 <= i < |ms| ==> Plain(ms[i].value)
    case _ => true
  }

  /** Equality up to the order of object keys, at every depth. */
  ghost predicate SameStructure(a: Json, b: Json)
    decreases a
  {
    match (a, b)
    case (Arr(xs), Arr(ys)) =>
      |xs| == |ys| && forall i :: 0 <= i < |xs| ==> SameStructure(xs[i], ys[i])
    case (Obj(ms), Obj(ns)) =>
      && (forall k :: k in Keys(ms) <==> k in Keys(ns))
      && forall i, j :: 0 <= i < |ms| && 0 <= j < |ns| && ms[i].key == ns[j].key ==>
                          SameStructure(ms[i].value, ns[j].value)
    case _ => a == b
  }

  // ------------------------------------------------------------ JSON.stringify on leaves

  const QUOTE: CodeUnit := 0x22
  const BACKSLASH: CodeUnit := 0x5C
  const COMMA: CodeUnit := 0x2C
  const COLON: CodeUnit := 0x3A
  const OPEN_BRACKET: CodeUnit := 0x5B
  const CLOSE_BRACKET: CodeUnit := 0x5D
  const OPEN_BRACE: CodeUnit := 0x7B
  const CLOSE_BRACE: CodeUnit := 0x7D
  const POINT: CodeUnit := 0x2E
  const MINUS: CodeUnit := 0x2D
  const PLUS: CodeUnit := 0x2B
  const LETTER_E: CodeUnit := 0x65
  const LETTER_U: CodeUnit := 0x75

  const NULL_TEXT: Text := [0x6E, 0x75, 0x6C, 0x6C]
  const TRUE_TEXT: Text := [0x74, 0x72, 0x75, 0x65]
  const FALSE_TEXT: Text := [0x66, 0x61, 0x6C, 0x73, 0x65]

  function DigitChar(d: Digit): CodeUnit { 0x30 + d }

  function Digits(ds: seq<Digit>): (t: Text)
    ensures |t| == |ds|
    ensures forall i :: 0 <= i < |ds| ==> t[i] == DigitChar(ds[i])
  {
    seq(|ds|, i requires 0 <= i < |ds| => DigitChar(ds[i]))
  }

  function Zeros(n: nat): (t: Text)
    ensures |t| == n && forall i :: 0 <= i < n ==> t[i] == DigitChar(0)
  {
    seq(n, _ => DigitChar(0))
  }

  function Decimal(n: nat): (t: Text)
    ensures |t| > 0
    ensures forall i :: 0 <= i < |t| ==> DigitChar(0) <= t[i] <= DigitChar(9)
  {
    if n < 10 then [DigitChar(n)] else Decimal(n / 10) + [DigitChar(n % 10)]
  }

  /** Steps 6 to 10 of `Number::toString`, with k = |ds| and n = point. */
  function Magnitude(ds: seq<Digit>, point: int): Text
    requires ds != []
  {
    if |ds| <= point <= 21 then
      Digits(ds) + Zeros(point - |ds|)
    else if 0 < point <= 21 then
      Digits(ds[..point]) + [POINT] + Digits(ds[point..])
    else if -6 < point <= 0 then
      [DigitChar(0), POINT] + Zeros(-point) + Digits(ds)
    else
      Mantissa(ds) + [LETTER_E] + Exponent(point - 1)
  }

  function Mantissa(ds: seq<Digit>): (t: Text)
    requires ds != []
    ensures |t| == if |ds| == 1 then 1 else |ds| + 1
    ensures forall i :: 0 <= i < |t| ==> DigitChar(0) <= t[i] <= DigitChar(9) || t[i] == POINT
  {
    if |ds| == 1 then Digits(ds) else Digits(ds[..1]) + [POINT] + Digits(ds[1..])
  }

  function Exponent(e: int): (t: Text)
    ensures |t| > 1 && t[0] == if e < 0 then MINUS else PLUS
    ensures forall i :: 1 <= i < |t| ==> DigitChar(0) <= t[i] <= DigitChar(9)
  {
    [if e < 0 then MINUS else PLUS] + Decimal(if e < 0 then -e else e)
  }

  function NumberText(n: Number): Text {
    match n
    case Zero => [DigitChar(0)]
    case NegativeZero => [DigitChar(0)]
    case NotFinite => NULL_TEXT
    case Finite(negative, ds, point) => (if negative then [MINUS] else []) + Magnitude(ds, point)
  }

  predicate LeadSurrogate(c: CodeUnit) { 0xD800 <= c < 0xDC00 }

  predicate TrailSurrogate(c: CodeUnit) { 0xDC00 <= c < 0xE000 }

  function HexChar(d: int): CodeUnit
    requires 0 <= d < 16
  {
    if d < 10 then 0x30 + d else 0x61 + (d - 10)
  }

  function UnicodeEscape(c: CodeUnit): Text {
    [BACKSLASH, LETTER_U,
     HexChar(c / 0x1000), HexChar(c / 0x100 % 0x10), HexChar(c / 0x10 % 0x10), HexChar(c % 0x10)]
  }

  /** One code point of `QuoteJSONString` (section 25.5.2.2 of ECMA-262) that is not a surrogate pair. */
  function Escape(c: CodeUnit): Text {
    if c == 0x08 then [BACKSLASH, 0x62]
    else if c == 0x09 then [BACKSLASH, 0x74]
    else if c == 0x0A then [BACKSLASH, 0x6E]
    else if c == 0x0C then [BACKSLASH, 0x66]
    else if c == 0x0D then [BACKSLASH, 0x72]
    else if c == QUOTE || c == BACKSLASH then [BACKSLASH, c]
    else if c < 0x20 || LeadSurrogate(c) || TrailSurrogate(c) then UnicodeEscape(c)
    else [c]
  }

  predicate StartsWithPair(s: Text) {
    |s| >= 2 && LeadSurrogate(s[0]) && TrailSurrogate(s[1])
  }

  function QuoteBody(s: Text): Text {
    if s == [] then []
    else if StartsWithPair(s) then s[..2] + QuoteBody(s[2..])
    else Escape(s[0]) + QuoteBody(s[1..])
  }

  function Quote(s: Text): Text {
    [QUOTE] + QuoteBody(s) + [QUOTE]
  }
}
