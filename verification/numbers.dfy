/**
 * JVM number conventions the client relies on: 32-bit `int` range and wrap-around,
 * `Integer.parseInt` / Kotlin `String.toInt()` on decimal text, `String.valueOf(int)`,
 * and `java.math.BigDecimal` as an unscaled value with a scale.
 */
module Numbers {
  import opened Wrappers

  const IntMin: int := -0x8000_0000
  const IntMax: int := 0x7fff_ffff

  predicate IsInt32(n: int) {
    IntMin <= n <= IntMax
  }

  /** The low 32 bits of `n` read as a signed `int` (a narrowing `(int)` cast). */
  function Wrap32(n: int): (r: int)
    ensures IsInt32(r)
    ensures (r - n) % 0x1_0000_0000 == 0
    ensures IsInt32(n) ==> r == n
  {
    (n + 0x8000_0000) % 0x1_0000_0000 - 0x8000_0000
  }

  function Pow10(k: nat): (r: nat)
    ensures r >= 1
  {
    if k == 0 then 1 else 10 * Pow10(k - 1)
  }

  // ---------------------------------------------------------------------------
  // Decimal text
  // ---------------------------------------------------------------------------

  predicate IsDigit(c: char) {
    '0' <= c <= '9'
  }

  predicate AllDigits(s: string) {
    forall i :: 0 <= i < |s| ==> IsDigit(s[i])
  }

  function DigitChar(d: nat): (c: char)
    requires d < 10
    ensures IsDigit(c) && (c as int) - ('0' as int) == d
  {
    ('0' as int + d) as char
  }

  /** The value of a string of decimal digits, most significant first. */
  function DigitsValue(s: string): nat
    requires AllDigits(s)
  {
    if |s| == 0 then 0
    else 10 * DigitsValue(s[..|s| - 1]) + ((s[|s| - 1] as int) - ('0' as int))
  }

  /** The shortest decimal representation of a natural number. */
  function NatToString(n: nat): (s: string)
    ensures |s| >= 1 && AllDigits(s)
    ensures n > 0 ==> s[0] != '0'
  {
    if n < 10 then [DigitChar(n)] else NatToString(n / 10) + [DigitChar(n % 10)]
  }

  /** `String.valueOf(int)` and Kotlin's `Int.toString()`. */
  function IntToString(n: int): (s: string)
    ensures |s| >= 1
    ensures n < 0 <==> s[0] == '-'
  {
    if n < 0 then "-" + NatToString(-n) else NatToString(n)
  }

  /**
   * `Integer.parseInt(s)` (the Java reader) and Kotlin's `String.toInt()`: an optional
   * `-` or `+` followed by at least one decimal digit, whose value must fit in an `int`;
   * anything else raises `NumberFormatException`.
   */
  function ParseInt(s: string): (r: Result<int>)
    ensures r.Failure? ==> r.error == NumberFormat
    ensures r.Success? ==> IsInt32(r.value)
    ensures |s| == 0 || s == "-" || s == "+" ==> r.Failure?
    ensures r.Success? && s[0] != '-' ==> r.value >= 0
  {
    if |s| == 0 then Failure(NumberFormat)
    else
      var signed := s[0] == '-' || s[0] == '+';
      var digits := if signed then s[1..] else s;
      if |digits| == 0 || !AllDigits(digits) then Failure(NumberFormat)
      else
        var magnitude: int := DigitsValue(digits);
        var v := if s[0] == '-' then -magnitude else magnitude;
        if IsInt32(v) then Success(v) else Failure(NumberFormat)
  }

  /** Kotlin's `String.toIntOrNull()`: the same grammar as `toInt()`, with `null` instead of the exception. */
  function ToIntOrNull(s: string): (r: Option<int>)
    ensures r.Some? <==> ParseInt(s).Success?
    ensures r.Some? ==> r.value == ParseInt(s).value
  {
    ParseInt(s).ToOption()
  }

  lemma {:induction false} DigitsValueOfNatToString(n: nat)
    ensures DigitsValue(NatToString(n)) == n
  {
    var s := NatToString(n);
    if n < 10 {
    } else {
      DigitsValueOfNatToString(n / 10);
      assert s[..|s| - 1] == NatToString(n / 10);
    }
  }

  /** Unsigned digits whose value fits in an `int` parse to that value. */
  lemma ParseIntOfDigits(digits: string)
    requires |digits| > 0 && AllDigits(digits) && DigitsValue(digits) <= IntMax
    ensures ParseInt(digits) == Success(DigitsValue(digits) as int)
  {
  }

  /** A minus sign before digits whose negated value fits in an `int` parses to the negated value. */
  lemma ParseIntOfNegatedDigits(digits: string)
    requires |digits| > 0 && AllDigits(digits) && DigitsValue(digits) <= -IntMin
    ensures ParseInt("-" + digits) == Success(-(DigitsValue(digits) as int))
  {
    assert ("-" + digits)[1..] == digits;
  }

  /** Printing an `int` and parsing it back gives the same `int`. */
  lemma ParseIntOfIntToString(n: int)
    requires IsInt32(n)
    ensures ParseInt(IntToString(n)) == Success(n)
  {
    assert IntMin <= n <= IntMax;
    hide *;
    if n < 0 {
      DigitsValueOfNatToString(-n);
      IntToStringNegative(n);
      ParseIntOfNegatedDigits(NatToString(-n));
    } else {
      DigitsValueOfNatToString(n);
      IntToStringNatural(n);
      ParseIntOfDigits(NatToString(n));
    }
  }

  lemma IntToStringNegative(n: int)
    requires n < 0
    ensures IntToString(n) == "-" + NatToString(-n)
  {
  }

  lemma IntToStringNatural(n: int)
    requires n >= 0
    ensures IntToString(n) == NatToString(n)
  {
  }

  /** A number too large for an `int` is rejected even though its text is well formed. */
  lemma ParseIntRejectsOverflow()
    ensures ParseInt(NatToString(IntMax + 1)).Failure?
  {
    DigitsValueOfNatToString(IntMax + 1);
  }

  // ---------------------------------------------------------------------------
  // BigDecimal
  // ---------------------------------------------------------------------------

  /**
   * A `java.math.BigDecimal`: the number `unscaled * 10^(-scale)`. Structural equality is
   * `BigDecimal.equals`, which tells `2.0` (20, 1) from `2.00` (200, 2).
   */
  datatype Decimal = Decimal(unscaled: int, scale: int)

  /** `BigDecimal.signum()`. */
  function Signum(d: Decimal): int {
    if d.unscaled > 0 then 1 else if d.unscaled < 0 then -1 else 0
  }

  /** `BigDecimal.compareTo(...) == 0`: the same number, whatever the scales. */
  predicate SameValue(a: Decimal, b: Decimal) {
    var k := if a.scale >= b.scale then a.scale else b.scale;
    a.unscaled * Pow10(k - a.scale) == b.unscaled * Pow10(k - b.scale)
  }

  /** `BigDecimal.intValue()`: the integer part, truncated toward zero, then narrowed to 32 bits. */
  function IntValue(d: Decimal): (r: int)
    ensures IsInt32(r)
    ensures d.scale <= 0 && IsInt32(d.unscaled * Pow10(-d.scale)) ==> r == d.unscaled * Pow10(-d.scale)
  {
    if d.scale <= 0 then Wrap32(d.unscaled * Pow10(-d.scale))
    else if d.unscaled >= 0 then Wrap32(d.unscaled / Pow10(d.scale))
    else Wrap32(-((-d.unscaled) / Pow10(d.scale)))
  }

  function Zeros(k: nat): (s: string)
    ensures |s| == k && AllDigits(s)
  {
    seq(k, _ => '0')
  }

  /** Leading zeros do not change the value of a digit string. */
  lemma {:induction false} DigitsValueLeadingZeros(k: nat, s: string)
    requires AllDigits(s)
    ensures AllDigits(Zeros(k) + s) && DigitsValue(Zeros(k) + s) == DigitsValue(s)
    decreases |s|
  {
    var z := Zeros(k) + s;
    assert AllDigits(z) by {
      forall i | 0 <= i < |z|
        ensures IsDigit(z[i])
      {
        if i >= k {
          assert z[i] == s[i - k];
        }
      }
    }
    if |s| == 0 {
      assert z == Zeros(k);
      ZerosValue(k);
    } else {
      var p := s[..|s| - 1];
      assert z[..|z| - 1] == Zeros(k) + p;
      DigitsValueLeadingZeros(k, p);
    }
  }

  lemma Rejoin(p: string, k: nat)
    requires k <= |p|
    ensures p[..k] + p[k..] == p
  {
  }

  /** Cutting a digit string in two keeps both halves digits, and joining them back keeps the value. */
  lemma SplitDigits(p: string, k: nat)
    requires AllDigits(p) && k <= |p|
    ensures AllDigits(p[..k]) && AllDigits(p[k..])
    ensures AllDigits(p[..k] + p[k..]) && DigitsValue(p[..k] + p[k..]) == DigitsValue(p)
  {
    Rejoin(p, k);
  }

  lemma {:induction false} ZerosValue(k: nat)
    ensures DigitsValue(Zeros(k)) == 0
  {
    if k > 0 {
      assert Zeros(k)[..k - 1] == Zeros(k - 1);
      ZerosValue(k - 1);
    }
  }

  /**
   * The digits of `magnitude`, with leading zeros added so that at least one digit stands before
   * the last `scale` ones.
   */
  function PaddedDigits(magnitude: nat, scale: nat): (p: string)
    ensures AllDigits(p) && |p| > scale && DigitsValue(p) == magnitude
  {
    var digits := NatToString(magnitude);
    DigitsValueOfNatToString(magnitude);
    if |digits| <= scale then
      DigitsValueLeadingZeros(scale + 1 - |digits|, digits);
      Zeros(scale + 1 - |digits|) + digits
    else digits
  }

  /** `BigDecimal.toPlainString()`: no exponent; exactly `scale` digits after the point when `scale > 0`. */
  function PlainString(d: Decimal): (s: string)
    ensures |s| >= 1
    ensures d.unscaled < 0 <==> s[0] == '-'
    ensures d.unscaled >= 0 ==> IsDigit(s[0])
    ensures d.scale > 0 ==> |s| >= d.scale + 2 && s[|s| - d.scale - 1] == '.'
  {
    if d.scale <= 0 then IntToString(d.unscaled * Pow10(-d.scale))
    else
      var padded := PaddedDigits(if d.unscaled < 0 then -d.unscaled else d.unscaled, d.scale);
      var sign := if d.unscaled < 0 then "-" else "";
      sign + padded[..|padded| - d.scale] + "." + padded[|padded| - d.scale..]
  }
}
