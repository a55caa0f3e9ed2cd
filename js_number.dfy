/**
 * `Number(s)` on a string (the ToNumber conversion of ECMAScript), which
 * zod's `z.coerce.number()` applies to a form field before checking it.
 * Values are exact reals; rounding to a double is not modelled.
 */
module JsNumber {
  import opened JsText

  datatype Number = NaN | Infinity(negative: bool) | Finite(value: real)

  function Pow10(k: nat): (r: nat)
    ensures r >= 1
  {
    if k == 0 then 1 else 10 * Pow10(k - 1)
  }

  /** `x` times ten to the power `e`. */
  function Scale(x: real, e: int): (r: real)
    ensures x >= 0.0 ==> r >= 0.0
  {
    if e >= 0 then x * Pow10(e) as real else x / Pow10(-e) as real
  }

  /** The exponent after `e`/`E`: an optional sign and at least one digit, up to the end. */
  function Exponent(t: string): Option<int> {
    var negative := t != [] && t[0] == '-';
    var d := if t != [] && (t[0] == '+' || t[0] == '-') then t[1..] else t;
    if d != [] && AllRadixDigits(d, 10) then
      var v: int := RadixValue(d, 10);
      Some(if negative then -v else v)
    else None
  }

  lemma AllDigitsAppend(a: string, b: string)
    requires AllRadixDigits(a, 10) && AllRadixDigits(b, 10)
    ensures AllRadixDigits(a + b, 10)
  {
    forall i | 0 <= i < |a + b| ensures IsRadixDigit((a + b)[i], 10) {
      if i >= |a| {
        assert (a + b)[i] == b[i - |a|];
      }
    }
  }

  /** The digits read as an integer, with the last `fractionLength` of them after the point. */
  function Mantissa(digits: string, fractionLength: nat): (m: real)
    requires AllRadixDigits(digits, 10)
    ensures m >= 0.0
  {
    var n: nat := RadixValue(digits, 10);
    var p: nat := Pow10(fractionLength);
    n as real / p as real
  }

  /**
   * An unsigned decimal literal: digits with an optional fraction (at
   * least one digit in all) and an optional exponent, consuming all of `u`.
   */
  function UnsignedDecimal(u: string): (r: Option<real>)
    ensures r.Some? ==> r.value >= 0.0
  {
    var whole := DigitPrefix(u, 10);
    var afterWhole := u[|whole|..];
    var hasPoint := afterWhole != [] && afterWhole[0] == '.';
    var fraction := if hasPoint then DigitPrefix(afterWhole[1..], 10) else [];
    var afterFraction := if hasPoint then afterWhole[1 + |fraction|..] else afterWhole;
    if whole == [] && fraction == [] then None
    else
      AllDigitsAppend(whole, fraction);
      var mantissa := Mantissa(whole + fraction, |fraction|);
      if afterFraction == [] then Some(mantissa)
      else if afterFraction[0] == 'e' || afterFraction[0] == 'E' then
        match Exponent(afterFraction[1..])
        case None => None
        case Some(e) => Some(Scale(mantissa, e))
      else None
  }

  /** The radix selected by a `0b`, `0o` or `0x` prefix letter, 0 for any other. */
  function PrefixRadix(c: char): nat {
    if c == 'b' || c == 'B' then 2
    else if c == 'o' || c == 'O' then 8
    else if c == 'x' || c == 'X' then 16
    else 0
  }

  /** `Number(s)`: blank text is 0, and a negative value needs a leading minus sign. */
  function ToNumber(s: string): (r: Number)
    ensures Trim(s) == [] ==> r == Finite(0.0)
    ensures r.Finite? && r.value < 0.0 ==> Trim(s) != [] && Trim(s)[0] == '-'
  {
    var t := Trim(s);
    if t == [] then Finite(0.0)
    else if |t| >= 2 && t[0] == '0' && PrefixRadix(t[1]) != 0 then
      var digits := t[2..];
      if digits != [] && AllRadixDigits(digits, PrefixRadix(t[1])) then
        Finite(RadixValue(digits, PrefixRadix(t[1])) as real)
      else NaN
    else
      var negative := t[0] == '-';
      var u := if t[0] == '+' || t[0] == '-' then t[1..] else t;
      if u == "Infinity" then Infinity(negative)
      else
        match UnsignedDecimal(u)
        case None => NaN
        case Some(m) => Finite(if negative then -m else m)
  }

  /** `Number.isInteger(n)` */
  predicate IsInteger(n: Number) {
    n.Finite? && n.value == n.value.Floor as real
  }

  lemma {:induction false} TrimOfIntToString(n: int)
    ensures Trim(IntToString(n)) == IntToString(n)
  {
    var s := IntToString(n);
    var m: nat := if n < 0 then -n else n;
    assert s[|s| - 1] == NatToString(m)[|NatToString(m)| - 1];
    assert IsDigit(s[|s| - 1]);
    assert !IsJsWhitespace(s[0]);
    assert TrimStart(s) == s;
  }

  /** A non-empty run of decimal digits reads as their value. */
  lemma UnsignedDecimalOfDigits(u: string)
    requires u != [] && AllRadixDigits(u, 10)
    ensures UnsignedDecimal(u) == Some(RadixValue(u, 10) as real)
  {
    DigitPrefixOfDigits(u, 10);
    var whole := DigitPrefix(u, 10);
    assert u[|whole|..] == [];
    assert whole + [] == u;
    MantissaWhole(u);
  }

  lemma MantissaWhole(d: string)
    requires AllRadixDigits(d, 10)
    ensures Mantissa(d, 0) == RadixValue(d, 10) as real
  {
    assert Pow10(0) == 1;
  }

  /** The digits of a natural number read back as a decimal literal. */
  lemma UnsignedDecimalOfNatToString(m: nat)
    ensures UnsignedDecimal(NatToString(m)) == Some(m as real)
    ensures NatToString(m) != "Infinity"
  {
    var u := NatToString(m);
    RadixValueOfNatToString(m);
    UnsignedDecimalOfDigits(u);
    assert u[0] != 'I';
  }

  /** A number written by `String(n)` converts back to `n`. */
  lemma ToNumberOfIntToString(n: int)
    ensures ToNumber(IntToString(n)) == Finite(n as real)
  {
    var s := IntToString(n);
    var m: nat := if n < 0 then -n else n;
    var u := NatToString(m);
    TrimOfIntToString(n);
    UnsignedDecimalOfNatToString(m);
    if n < 0 {
      assert s[0] == '-' && s[1..] == u;
    } else {
      assert s == u;
      assert !(|s| >= 2 && s[0] == '0');
      assert s[0] != '-' && s[0] != '+';
    }
  }
}
