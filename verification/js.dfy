/** The JavaScript values a code generator reads from its configuration, and
    the handful of JavaScript operations the generators apply to them:
    template interpolation, truthiness, `||`, `??`, `typeof ... === 'number'`
    and the two places where arithmetic turns a value into numeric text. */
module Js {

  datatype Option<T> = None | Some(value: T)

  /** One configuration field. Numbers are integers (see README, "Left out"). */
  datatype Value = Undefined | Null | Bool(b: bool) | Num(n: int) | Str(s: string)

  /** A `styles.padding` field: absent (or null), or an object with `px` and
      `py`; an object is always truthy. */
  datatype Padding = NoPadding | Pad(px: Value, py: Value)

  /** JavaScript truthiness: `undefined`, `null`, `false`, `0` and `""` are falsy. */
  predicate Truthy(v: Value) {
    match v
    case Undefined => false
    case Null => false
    case Bool(b) => b
    case Num(n) => n != 0
    case Str(s) => s != ""
  }

  /** `a || b` */
  function Or(a: Value, b: Value): Value {
    if Truthy(a) then a else b
  }

  /** `a ?? b` */
  function Coalesce(a: Value, b: Value): Value {
    if a == Undefined || a == Null then b else a
  }

  /** `${v}` inside a template literal, that is `String(v)`. */
  function Show(v: Value): string {
    match v
    case Undefined => "undefined"
    case Null => "null"
    case Bool(b) => if b then "true" else "false"
    case Num(n) => IntToString(n)
    case Str(s) => s
  }

  /** An element of an array as `Array.prototype.join` renders it: like
      `String(v)`, except that `undefined` and `null` become empty. */
  function JoinText(v: Value): string {
    if v == Undefined || v == Null then "" else Show(v)
  }

  /** The style-value normaliser shared by several generators:
      `v !== undefined ? (typeof v === 'number' ? `${v}px` : v) : undefined`. */
  function PxOrPass(v: Value): Value {
    if v.Num? then Str(IntToString(v.n) + "px") else v
  }

  /** A normalised value is never a number: a numeric radius n becomes a
      string ending in "px" whose digits read back as n; unset stays unset;
      and normalising twice is the same as normalising once. */
  lemma PxOrPassSpec(v: Value)
    ensures !PxOrPass(v).Num?
    ensures v.Num? ==> var t := PxOrPass(v);
      t.Str? && |t.s| > 2 && t.s[|t.s| - 2..] == "px" && ParseDecimal(t.s[..|t.s| - 2]) == Some(v.n)
    ensures PxOrPass(v) == Undefined <==> v == Undefined
    ensures PxOrPass(PxOrPass(v)) == PxOrPass(v)
  {
    if v.Num? {
      var d := IntToString(v.n);
      IntToStringRoundTrip(v.n);
      assert (d + "px")[..|d|] == d;
      assert (d + "px")[|d|..] == "px";
    }
  }

  // ---------------------------------------------------------------------
  // Decimal text of integers

  predicate IsDigit(c: char) {
    '0' <= c <= '9'
  }

  predicate AllDigits(s: string) {
    forall i :: 0 <= i < |s| ==> IsDigit(s[i])
  }

  function DigitChar(d: int): (c: char)
    requires 0 <= d < 10
    ensures IsDigit(c) && c as int - '0' as int == d
  {
    "0123456789"[d]
  }

  /** Decimal digits of a natural number, without leading zeros. */
  function NatToString(n: nat): (r: string)
    ensures |r| > 0 && AllDigits(r)
    ensures |r| > 1 ==> r[0] != '0'
    decreases n
  {
    if n < 10 then [DigitChar(n)] else NatToString(n / 10) + [DigitChar(n % 10)]
  }

  /** `${n}` for an integer n. */
  function IntToString(n: int): string {
    if n < 0 then "-" + NatToString(-n) else NatToString(n)
  }

  /** The number a string of decimal digits denotes. */
  function DigitsValue(s: string): nat
    requires AllDigits(s)
  {
    if s == [] then 0 else DigitsValue(s[..|s| - 1]) * 10 + (s[|s| - 1] as int - '0' as int)
  }

  /** `Number(s)` for an optionally signed decimal integer; None for any other text. */
  function ParseDecimal(s: string): Option<int> {
    if |s| > 1 && (s[0] == '-' || s[0] == '+') && AllDigits(s[1..]) then
      Some(if s[0] == '-' then -(DigitsValue(s[1..]) as int) else DigitsValue(s[1..]))
    else if |s| > 0 && AllDigits(s) then
      Some(DigitsValue(s))
    else
      None
  }

  lemma {:induction false} NatToStringRoundTrip(n: nat)
    ensures DigitsValue(NatToString(n)) == n
    decreases n
  {
    if n >= 10 {
      NatToStringRoundTrip(n / 10);
      var s := NatToString(n);
      assert s[..|s| - 1] == NatToString(n / 10);
    }
  }

  /** The text an integer is interpolated as reads back as that integer: the
      rendering of numbers in generated code loses nothing. */
  lemma IntToStringRoundTrip(n: int)
    ensures ParseDecimal(IntToString(n)) == Some(n)
  {
    if n < 0 {
      NatToStringRoundTrip(-n);
      var s := IntToString(n);
      assert s[1..] == NatToString(-n);
    } else {
      NatToStringRoundTrip(n);
    }
  }

  /** Distinct integers are interpolated as distinct texts. */
  lemma IntToStringInjective(m: int, n: int)
    ensures IntToString(m) == IntToString(n) ==> m == n
  {
    IntToStringRoundTrip(m);
    IntToStringRoundTrip(n);
  }

  // ---------------------------------------------------------------------
  // Arithmetic on configuration values

  /** The JavaScript numbers that arithmetic on integer configurations can
      produce before rounding: NaN or an integer. */
  datatype Number = NaN | Int(i: int)

  /** `Number(v)` (the coercion `*` and `/` apply). Of strings only the empty
      string and optionally signed decimal integers are recognised. */
  function ToNumber(v: Value): Number {
    match v
    case Undefined => NaN
    case Null => Int(0)
    case Bool(b) => Int(if b then 1 else 0)
    case Num(n) => Int(n)
    case Str(s) =>
      if s == "" then Int(0)
      else match ParseDecimal(s)
        case Some(i) => Int(i)
        case None => NaN
  }

  const Fractions: seq<string> := ["", ".25", ".5", ".75"]

  /** `${x * 0.25}`: a quarter of an integer is exact in binary floating point,
      so its text is the integer part and a fraction of .25, .5 or .75. */
  function QuarterText(x: Number): (r: string)
    ensures x == NaN ==> r == "NaN"
    ensures x.Int? && x.i % 4 == 0 ==> r == IntToString(x.i / 4)
    ensures x.Int? && x.i % 4 != 0 ==> |r| > 0 && r[|r| - 1] == '5'
  {
    match x
    case NaN => "NaN"
    case Int(n) =>
      var m := if n < 0 then -n else n;
      (if n < 0 then "-" else "") + NatToString(m / 4) + Fractions[m % 4]
  }

  /** `Math.round(a / b)` for integers, b nonzero: the integer nearest to a / b,
      halves rounded up. */
  function RoundDiv(a: int, b: int): (r: int)
    requires b != 0
    ensures b > 0 ==> 2 * b * r - b <= 2 * a < 2 * b * r + b
    ensures b < 0 ==> 2 * b * r - b >= 2 * a > 2 * b * r + b
  {
    if b > 0 then (2 * a + b) / (2 * b) else (-2 * a - b) / (-2 * b)
  }

  /** `${Math.round((a / b) * 100)}`, including the NaN and Infinity results
      of a zero or non-numeric divisor. */
  function PercentText(a: Number, b: Number): (r: string)
    ensures a == NaN || b == NaN ==> r == "NaN"
    ensures a.Int? && b.Int? && b.i == 0 ==>
      r == (if a.i > 0 then "Infinity" else if a.i < 0 then "-Infinity" else "NaN")
  {
    match (a, b)
    case (Int(v), Int(m)) =>
      if m == 0 then (if v > 0 then "Infinity" else if v < 0 then "-Infinity" else "NaN")
      else IntToString(RoundDiv(100 * v, m))
    case _ => "NaN"
  }

  /** A value between 0 and the maximum gives a percentage between 0 and 100. */
  lemma PercentInRange(v: int, m: int)
    requires 0 <= v <= m && m > 0
    ensures 0 <= RoundDiv(100 * v, m) <= 100
  {
    var r := RoundDiv(100 * v, m);
    assert 2 * m * r - m <= 200 * v < 2 * m * r + m;
    if r < 0 {
      MulMonotone(2 * m, r, -1);
    }
    if r > 100 {
      MulMonotone(2 * m, 101, r);
      MulMonotone(200, v, m);
    }
  }

  lemma MulMonotone(k: int, a: int, b: int)
    requires k > 0 && a <= b
    ensures k * a <= k * b
  {
  }
}
