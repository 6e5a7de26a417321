/** Loosely typed values as the player's property setters receive them, and the
    coercions the setters apply to them: the `is.number`, `is.boolean` and
    `is.empty` tests, JavaScript's `Number(...)` and `Boolean(...)`. */
module JsValues {

  datatype Option<+T> = None | Some(value: T)

  /** A JavaScript value, reduced to what the setters distinguish. A number is a
      `real` (no infinities, no rounding); objects and arrays are known only by
      whether they are empty. */
  datatype JsValue =
    | Undefined
    | Null
    | Bool(b: bool)
    | Num(n: real)
    | NaN
    | Str(s: string)
    | Obj(empty: bool)

  /** `is.number`: a Number that is not NaN. */
  predicate IsNumber(v: JsValue) { v.Num? }

  /** `is.boolean`. */
  predicate IsBoolean(v: JsValue) { v.Bool? }

  /** `is.empty`: null, undefined, the empty string, an empty array or object. */
  predicate IsEmpty(v: JsValue) {
    v.Undefined? || v.Null? || (v.Str? && v.s == "") || (v.Obj? && v.empty)
  }

  /** `Boolean(v)`. */
  predicate Truthy(v: JsValue) {
    match v
    case Undefined => false
    case Null => false
    case NaN => false
    case Bool(b) => b
    case Num(n) => n != 0.0
    case Str(s) => s != ""
    case Obj(_) => true
  }

  // ---------------------------------------------------------------------
  // Number(...) of a string, for the decimal notation the player meets:
  // an optional sign, digits, and an optional fraction after one '.'.
  // ---------------------------------------------------------------------

  predicate IsDigit(c: char) { '0' <= c <= '9' }

  predicate AllDigits(s: string) { forall i :: 0 <= i < |s| ==> IsDigit(s[i]) }

  function DigitValue(c: char): (d: nat)
    requires IsDigit(c)
    ensures d < 10
  {
    (c as int) - ('0' as int)
  }

  /** The value of a run of decimal digits, most significant first. */
  function DigitsValue(ds: string): nat
    requires AllDigits(ds)
  {
    if ds == [] then 0 else DigitsValue(ds[..|ds| - 1]) * 10 + DigitValue(ds[|ds| - 1])
  }

  /** The value of the digits after a decimal point. */
  function FractionValue(ds: string): real
    requires AllDigits(ds)
  {
    if ds == [] then 0.0 else (DigitValue(ds[0]) as real + FractionValue(ds[1..])) / 10.0
  }

  /** Index of the first '.', or |s| when there is none. */
  function DotIndex(s: string): (k: nat)
    ensures k <= |s|
    ensures k < |s| ==> s[k] == '.'
    ensures forall i :: 0 <= i < k ==> s[i] != '.'
  {
    if s == [] then 0 else if s[0] == '.' then 0 else 1 + DotIndex(s[1..])
  }

  /** Digits with at most one '.', and at least one digit: "12", "1.5", ".5", "5.". */
  predicate UnsignedLiteral(s: string) {
    var k := DotIndex(s);
    && AllDigits(s[..k])
    && (k < |s| ==> AllDigits(s[k + 1..]))
    && (k > 0 || k + 1 < |s|)
  }

  predicate HasSign(s: string) { |s| > 0 && (s[0] == '+' || s[0] == '-') }

  /** A string that `Number(...)` turns into a number other than 0-for-empty. */
  predicate NumericLiteral(s: string) {
    if HasSign(s) then UnsignedLiteral(s[1..]) else UnsignedLiteral(s)
  }

  function UnsignedValue(s: string): real
    requires UnsignedLiteral(s)
  {
    var k := DotIndex(s);
    DigitsValue(s[..k]) as real + (if k < |s| then FractionValue(s[k + 1..]) else 0.0)
  }

  function LiteralValue(s: string): real
    requires NumericLiteral(s)
  {
    if HasSign(s) then
      (if s[0] == '-' then -UnsignedValue(s[1..]) else UnsignedValue(s[1..]))
    else UnsignedValue(s)
  }

  /** `Number(v)`: a number, or NaN. */
  function ToNumber(v: JsValue): (r: JsValue)
    ensures r.Num? || r.NaN?
    ensures v.Num? ==> r == v
    ensures v.Str? ==> (r.Num? <==> v.s == "" || NumericLiteral(v.s))
  {
    match v
    case Undefined => NaN
    case Null => Num(0.0)
    case Bool(b) => Num(if b then 1.0 else 0.0)
    case Num(_) => v
    case NaN => NaN
    case Str(s) =>
      if s == "" then Num(0.0)
      else if NumericLiteral(s) then Num(LiteralValue(s))
      else NaN
    case Obj(_) => NaN
  }

  /** Every character of a numeric literal is a digit, a sign or the point. */
  lemma NumericLiteralAlphabet(s: string, i: nat)
    requires NumericLiteral(s) && i < |s|
    ensures IsDigit(s[i]) || s[i] in "+-."
  {
    var u := if HasSign(s) then s[1..] else s;
    if !(HasSign(s) && i == 0) {
      var j := if HasSign(s) then i - 1 else i;
      assert u[j] == s[i];
      var k := DotIndex(u);
      if j < k {
        assert u[..k][j] == u[j];
      } else if j > k {
        assert u[k + 1..][j - k - 1] == u[j];
      }
    }
  }

  // ---------------------------------------------------------------------
  // Decimal notation of a natural number, to check Number(...) against.
  // ---------------------------------------------------------------------

  function DigitChar(d: nat): (c: char)
    requires d < 10
    ensures IsDigit(c) && DigitValue(c) == d
  {
    ('0' as int + d) as char
  }

  /** The decimal notation of n, without leading zeros. */
  function Decimal(n: nat): (s: string)
    ensures |s| > 0 && AllDigits(s)
  {
    if n < 10 then [DigitChar(n)] else Decimal(n / 10) + [DigitChar(n % 10)]
  }

  lemma {:induction false} DecimalValue(n: nat)
    ensures DigitsValue(Decimal(n)) == n
  {
    if n >= 10 {
      var s := Decimal(n);
      assert s[..|s| - 1] == Decimal(n / 10);
      DecimalValue(n / 10);
    }
  }

  /** `Number(String(n)) == n` for every natural number n. */
  lemma {:induction false} NumberOfDecimal(n: nat)
    ensures ToNumber(Str(Decimal(n))) == Num(n as real)
  {
    var s := Decimal(n);
    assert !HasSign(s) by { assert IsDigit(s[0]); }
    assert forall i :: 0 <= i < |s| ==> s[i] != '.' by {
      forall i | 0 <= i < |s| ensures s[i] != '.' { assert IsDigit(s[i]); }
    }
    assert DotIndex(s) == |s|;
    assert s[..|s|] == s;
    DecimalValue(n);
  }
}
