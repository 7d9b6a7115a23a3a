/**
 * The slice of JavaScript value semantics the storefront's handlers depend on: JSON values as
 * they travel through requests and the key-value store, truthiness (`!x`, `x || d`), property
 * access, what `JSON.stringify` keeps of an object literal, and `parseInt`/`parseFloat`.
 */
module Js {
  import opened Wrappers
  import opened Text

  /** A JSON value. Numbers are idealised as reals; `NaN` cannot occur because it serialises to null. */
  datatype Json =
    | JNull
    | JBool(b: bool)
    | JNum(n: real)
    | JStr(s: string)
    | JArr(elems: seq<Json>)
    | JObj(fields: map<string, Json>)

  /** JavaScript truthiness: null, false, 0 and "" are falsy; arrays and objects, even empty, are truthy. */
  predicate Truthy(v: Json) {
    match v
    case JNull => false
    case JBool(b) => b
    case JNum(n) => n != 0.0
    case JStr(s) => s != ""
    case JArr(_) => true
    case JObj(_) => true
  }

  /** Truthiness of a value that may be `undefined` (`None`). */
  predicate Present(o: Option<Json>) {
    o.Some? && Truthy(o.value)
  }

  /** `null` or `undefined`: reading a property of such a value throws a TypeError. */
  predicate Nullish(o: Option<Json>) {
    o.None? || o.value.JNull?
  }

  /** `a || d`. */
  function Or(a: Option<Json>, d: Json): Json {
    if Present(a) then a.value else d
  }

  /** `m[k]` for a plain object, `undefined` when the key is absent. */
  function Get(m: map<string, Json>, k: string): Option<Json> {
    if k in m then Some(m[k]) else None
  }

  /** `v.k` for a value that is not null: only objects carry data properties. */
  function Prop(v: Json, k: string): Option<Json> {
    if v.JObj? then Get(v.fields, k) else None
  }

  /** The own properties that `{...v}` copies from a stored JSON value. */
  function Spread(v: Json): map<string, Json> {
    if v.JObj? then v.fields else map[]
  }

  /**
   * The object `{...m, [k]: v}` as it is stored after `JSON.stringify`: a property whose value is
   * `undefined` is dropped, so an undefined `v` removes `k`.
   */
  function Assign(m: map<string, Json>, k: string, v: Option<Json>): (r: map<string, Json>)
    ensures Get(r, k) == v
    ensures forall j :: j != k ==> Get(r, j) == Get(m, j)
  {
    if v.Some? then m[k := v.value] else m - {k}
  }

  /** An optional sign at the start of `s`: whether it is `-`, and the text after it. */
  function SignPrefix(s: string): (bool, string) {
    if |s| > 0 && (s[0] == '-' || s[0] == '+') then (s[0] == '-', s[1..]) else (false, s)
  }

  function Signed(negative: bool, x: real): real {
    if negative then -x else x
  }

  /** A decimal literal at the start of `s`: its integer digits, its fraction digits and the text after it. */
  function DecimalPrefix(s: string): (r: (string, string, string))
    ensures AllDigits(r.0) && AllDigits(r.1)
  {
    var whole := LeadingDigits(s);
    var rest := s[|whole|..];
    if |rest| > 0 && rest[0] == '.' then
      var frac := LeadingDigits(rest[1..]);
      (whole, frac, rest[1 + |frac|..])
    else (whole, "", rest)
  }

  /** An exponent (`e` or `E`, an optional sign, at least one digit) at the start of `s`, if there is one. */
  function ExponentPrefix(s: string): Option<int> {
    if |s| > 0 && (s[0] == 'e' || s[0] == 'E') then
      var (negative, t) := SignPrefix(s[1..]);
      var digits := LeadingDigits(t);
      if digits == "" then None
      else Some(if negative then -(DigitsValue(digits) as int) else DigitsValue(digits))
    else None
  }

  /** `x` times ten to the power `e`, one factor of ten at a time. */
  function Scale(x: real, e: int): (r: real)
    ensures x >= 0.0 ==> r >= 0.0
    decreases if e >= 0 then e else -e
  {
    if e == 0 then x
    else if e > 0 then Scale(x, e - 1) * 10.0
    else Scale(x, e + 1) / 10.0
  }

  /** A whole number scaled up by a non-negative exponent. */
  lemma {:induction false} ScaleWhole(n: nat, e: nat)
    ensures Scale(n as real, e) == (n * Pow10(e)) as real
  {
    if e > 0 {
      ScaleWhole(n, e - 1);
      assert n * Pow10(e) == n * Pow10(e - 1) * 10;
    }
  }

  /**
   * `parseFloat` on a string: leading white space is skipped, then a sign and an unsigned
   * literal are read as far as they go; `None` (NaN) when no digit is found.
   */
  function ParseFloatText(s: string): (r: Option<real>)
    ensures TrimStart(s) == "" ==> r == None
  {
    var (negative, body) := SignPrefix(TrimStart(s));
    var u := UnsignedFloat(body);
    if u.None? then None else Some(Signed(negative, u.value))
  }

  /** Digits with an optional fraction and an optional exponent at the start of `s`. */
  function UnsignedFloat(s: string): (r: Option<real>)
    ensures r.Some? <==> DecimalPrefix(s).0 != "" || DecimalPrefix(s).1 != ""
    ensures r.Some? ==> r.value >= 0.0
  {
    var p := DecimalPrefix(s);
    if p.0 == "" && p.1 == "" then None
    else Some(Exponentiate(Mantissa(p.0, p.1), ExponentPrefix(p.2)))
  }

  /** The value of a literal's integer and fraction digits. */
  function Mantissa(whole: string, frac: string): (r: real)
    requires AllDigits(whole) && AllDigits(frac)
    ensures r >= 0.0
  {
    DigitsValue(whole) as real + FractionValue(frac)
  }

  function Exponentiate(x: real, e: Option<int>): (r: real)
    ensures x >= 0.0 ==> r >= 0.0
  {
    if e.Some? then Scale(x, e.value) else x
  }

  /** The value of the digits after a decimal point. */
  function FractionValue(frac: string): (r: real)
    requires AllDigits(frac)
    ensures r >= 0.0
    ensures frac == "" ==> r == 0.0
  {
    if frac == "" then 0.0 else Scale(DigitsValue(frac) as real, -|frac|)
  }

  /**
   * `parseInt` on a string in base 10: leading white space is skipped, then a sign and the digits
   * are read as far as they go; `None` (NaN) when there is no digit.
   */
  function ParseIntText(s: string): (r: Option<int>)
    ensures TrimStart(s) == "" ==> r == None
  {
    var (negative, body) := SignPrefix(TrimStart(s));
    var whole := LeadingDigits(body);
    if whole == "" then None else Some(if negative then -(DigitsValue(whole) as int) else DigitsValue(whole))
  }

  /** `Math.trunc`: rounds toward zero. */
  function Trunc(r: real): (i: int)
    ensures r >= 0.0 ==> i as real <= r < i as real + 1.0
    ensures r < 0.0 ==> i as real - 1.0 < r <= i as real
  {
    if r >= 0.0 then r.Floor else -((-r).Floor)
  }

  /**
   * `parseFloat(v)`; `None` stands for NaN. The argument is read as text: a number as the text
   * that prints it, which reads back as the number; an array as its elements' texts joined by
   * commas, so that the literal ends within the first element's text; `null` inside an array as
   * "", and `undefined`, `null`, booleans and objects as text without a digit.
   */
  function ParseFloat(v: Option<Json>): (r: Option<real>)
    ensures v.Some? && v.value.JNum? ==> r == Some(v.value.n)
    ensures v.Some? && v.value.JStr? ==> r == ParseFloatText(v.value.s)
    ensures v.None? || v.value.JNull? || v.value.JBool? || v.value.JObj? ==> r.None?
    ensures v.Some? && v.value.JArr? && v.value.elems == [] ==> r.None?
  {
    if v.None? then None else ParseFloatValue(v.value)
  }

  function ParseFloatValue(j: Json): Option<real> {
    match j
    case JNum(n) => Some(n)
    case JStr(s) => ParseFloatText(s)
    case JArr(elems) => if elems == [] then None else ParseFloatValue(elems[0])
    case _ => None
  }

  /** `parseInt(v)`; `None` stands for NaN. The argument is read as text, as for `ParseFloat`. */
  function ParseInt(v: Option<Json>): (r: Option<int>)
    ensures v.Some? && v.value.JNum? ==> r == Some(Trunc(v.value.n))
    ensures v.Some? && v.value.JStr? ==> r == ParseIntText(v.value.s)
    ensures v.None? || v.value.JNull? || v.value.JBool? || v.value.JObj? ==> r.None?
    ensures v.Some? && v.value.JArr? && v.value.elems == [] ==> r.None?
  {
    if v.None? then None else ParseIntValue(v.value)
  }

  function ParseIntValue(j: Json): Option<int> {
    match j
    case JNum(n) => Some(Trunc(n))
    case JStr(s) => ParseIntText(s)
    case JArr(elems) => if elems == [] then None else ParseIntValue(elems[0])
    case _ => None
  }

  /** An array is read through its first element, however deeply nested. */
  lemma ParseOfArray(elems: seq<Json>)
    requires elems != []
    ensures ParseFloat(Some(JArr(elems))) == ParseFloat(Some(elems[0]))
    ensures ParseInt(Some(JArr(elems))) == ParseInt(Some(elems[0]))
  {
  }

  /** A number as `JSON.stringify` writes it: NaN becomes null. */
  function NumberJson(x: Option<real>): (j: Json)
    ensures x.Some? <==> j.JNum?
  {
    if x.Some? then JNum(x.value) else JNull
  }

  /** A parsed number is truthy exactly when it is a number other than 0. */
  lemma TruthyNumber(x: Option<real>)
    ensures Truthy(NumberJson(x)) <==> x.Some? && x.value != 0.0
  {
  }

  /** `parseInt` and `parseFloat` read a string of digits as its decimal value. */
  lemma {:induction false} ParseDigitsText(s: string)
    requires AllDigits(s) && s != ""
    ensures ParseIntText(s) == Some(DigitsValue(s))
    ensures ParseFloatText(s) == Some(DigitsValue(s) as real)
  {
    ParseIntDigits(s);
    ParseFloatDigits(s);
  }

  /** `parseFloat` of text that starts with a digit is a non-negative number. */
  lemma {:induction false} ParseFloatDigitStart(s: string)
    requires s != "" && IsDigit(s[0])
    ensures ParseFloatText(s) == UnsignedFloat(s)
    ensures ParseFloatText(s).Some? && ParseFloatText(s).value >= 0.0
  {
    UnsignedStart(s);
    assert LeadingDigits(s) != "";
  }

  /** `parseInt` of text that starts with a digit is a non-negative integer. */
  lemma {:induction false} ParseIntDigitStart(s: string)
    requires s != "" && IsDigit(s[0])
    ensures ParseIntText(s) == Some(DigitsValue(LeadingDigits(s)))
  {
    UnsignedStart(s);
    assert LeadingDigits(s) != "";
  }

  /** Text that starts with a digit has neither white space nor a sign to skip. */
  lemma {:induction false} UnsignedStart(s: string)
    requires s != "" && IsDigit(s[0])
    ensures TrimStart(s) == s && SignPrefix(s) == (false, s)
  {
  }

  lemma {:induction false} ParseIntDigits(s: string)
    requires AllDigits(s) && s != ""
    ensures ParseIntText(s) == Some(DigitsValue(s))
  {
    UnsignedStart(s);
    LeadingDigitsOfDigits(s);
  }

  lemma {:induction false} ParseFloatDigits(s: string)
    requires AllDigits(s) && s != ""
    ensures ParseFloatText(s) == Some(DigitsValue(s) as real)
  {
    UnsignedStart(s);
    UnsignedFloatDigits(s);
  }

  lemma {:induction false} UnsignedFloatDigits(s: string)
    requires AllDigits(s) && s != ""
    ensures UnsignedFloat(s) == Some(DigitsValue(s) as real)
  {
    DecimalPrefixOfDigits(s);
  }

  /** A string of digits is all integer part. */
  lemma {:induction false} DecimalPrefixOfDigits(s: string)
    requires AllDigits(s)
    ensures DecimalPrefix(s) == (s, "", "")
  {
    LeadingDigitsOfDigits(s);
    assert s[|s|..] == "";
  }

  /** `parseFloat` of a minus sign and a text reads the text unsigned and negates it. */
  lemma {:induction false} ParseFloatMinus(s: string)
    ensures ParseFloatText("-" + s) == if UnsignedFloat(s).None? then None else Some(-UnsignedFloat(s).value)
  {
    MinusSign(s);
  }

  /** A leading minus sign is neither white space nor part of the number: what follows it is read unsigned. */
  lemma {:induction false} MinusSign(s: string)
    ensures SignPrefix(TrimStart("-" + s)) == (true, s)
  {
    assert ("-" + s)[1..] == s;
    assert TrimStart("-" + s) == "-" + s;
  }

  /** `parseFloat` of a minus sign and digits is the negated value of the digits. */
  lemma {:induction false} ParseFloatNegativeDigits(d: string)
    requires AllDigits(d) && d != ""
    ensures ParseFloatText("-" + d) == Some(-(DigitsValue(d) as real))
  {
    assert IsDigit(d[0]);
    UnsignedStart(d);
    assert ("-" + d)[1..] == d;
    assert TrimStart("-" + d) == "-" + d;
    UnsignedFloatDigits(d);
  }

  /** Digits followed by an exponent: `parseFloat("<d>e<k>")` is `d` times ten to the `k`. */
  lemma {:induction false} ParseFloatExponent(d: string, k: string)
    requires AllDigits(d) && d != "" && AllDigits(k) && k != ""
    ensures ParseFloatText(d + "e" + k) == Some((DigitsValue(d) * Pow10(DigitsValue(k))) as real)
  {
    var s := d + ("e" + k);
    assert d + "e" + k == s;
    assert s[0] == d[0];
    UnsignedStart(s);
    UnsignedFloatExponent(d, k);
    ScaleWhole(DigitsValue(d), DigitsValue(k));
  }

  lemma {:induction false} UnsignedFloatExponent(d: string, k: string)
    requires AllDigits(d) && d != "" && AllDigits(k) && k != ""
    ensures UnsignedFloat(d + ("e" + k)) == Some(Scale(DigitsValue(d) as real, DigitsValue(k)))
  {
    assert UnsignedFloat(d + ("e" + k)) == Some(Exponentiate(Mantissa(d, ""), ExponentPrefix("e" + k))) by {
      DecimalPrefixStop(d, "e" + k);
    }
    ExponentOfDigits(k);
  }

  /** Digits followed by neither a digit nor a point are all integer part. */
  lemma {:induction false} DecimalPrefixStop(d: string, t: string)
    requires AllDigits(d) && t != [] && !IsDigit(t[0]) && t[0] != '.'
    ensures DecimalPrefix(d + t) == (d, "", t)
  {
    LeadingDigitsStop(d, t);
    assert (d + t)[|d|..] == t;
  }

  lemma {:induction false} ExponentOfDigits(k: string)
    requires AllDigits(k) && k != ""
    ensures ExponentPrefix("e" + k) == Some(DigitsValue(k) as int)
  {
    assert ("e" + k)[1..] == k;
    UnsignedStart(k);
    LeadingDigitsOfDigits(k);
  }

  /** A minus sign in front of an unsigned number negates what `parseInt` reads. */
  lemma {:induction false} ParseIntNegative(s: string)
    requires s != "" && IsDigit(s[0])
    ensures ParseIntText(s).Some? && ParseIntText("-" + s) == Some(-ParseIntText(s).value)
  {
    ParseIntDigitStart(s);
    MinusSign(s);
    UnsignedStart(s);
  }

  /** `parseInt` of a rendered natural number gives that number back. */
  lemma ParseIntOfNatString(n: nat)
    ensures ParseInt(Some(JStr(NatToString(n)))) == Some(n)
  {
    NatToStringRoundTrip(n);
    ParseDigitsText(NatToString(n));
  }

  /** `x || 0` after `parseFloat`: NaN and 0 both give 0. */
  function NumberOrZero(x: Option<real>): real {
    if x.Some? then x.value else 0.0
  }
}
