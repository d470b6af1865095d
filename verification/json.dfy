/**
 * A JSON value with the accessors of the two JSON libraries the client uses
 * (Gson's `JsonElement.getAsX()` and kotlinx's `jsonPrimitive` / `jsonArray` / `jsonObject`),
 * and per-type codecs standing for Gson type adapters and kotlinx serializers.
 */
module Json {
  import opened Wrappers
  import opened Numbers
  import opened Text

  /** Object members are a map: member order is not modelled. A number keeps its decimal scale. */
  datatype Json =
    | JNull
    | JBool(b: bool)
    | JNum(num: Decimal)
    | JStr(str: string)
    | JArr(items: seq<Json>)
    | JObj(fields: map<string, Json>)

  /** An integer written as a JSON number, as `new JsonPrimitive(int)` and kotlinx's `JsonPrimitive(Int)` do. */
  function IntJson(n: int): (j: Json)
    ensures j.JNum? && j.num.scale == 0
  {
    JNum(Decimal(n, 0))
  }

  /** The text of a JSON number, taken as its plain decimal form. */
  function NumberText(d: Decimal): string {
    PlainString(d)
  }

  function BoolText(b: bool): string {
    if b then "true" else "false"
  }

  // ---------------------------------------------------------------------------
  // Gson accessors
  // ---------------------------------------------------------------------------

  /**
   * The plain part of `new BigDecimal(s)`: optional sign, digits, at most one point, at least one
   * digit. The scale is the number of digits after the point.
   */
  function ParsePlainDecimal(s: string): (r: Result<Decimal>)
    ensures r.Failure? ==> r.error == NumberFormat
    ensures r.Success? ==> r.value.scale >= 0
  {
    var negative := |s| > 0 && s[0] == '-';
    var body := if |s| > 0 && (s[0] == '-' || s[0] == '+') then s[1..] else s;
    var parts := Split(body, '.');
    var whole := parts[0];
    var fraction := if |parts| == 2 then parts[1] else "";
    if |parts| > 2 || !AllDigits(whole) || !AllDigits(fraction) || |whole| + |fraction| == 0 then
      Failure(NumberFormat)
    else
      var magnitude: int := DigitsValue(whole + fraction);
      Success(Decimal(if negative then -magnitude else magnitude, |fraction|))
  }

  predicate IsExponentMark(c: char) {
    c == 'e' || c == 'E'
  }

  /** Position of the first `e` or `E` at or after `from`, or -1. */
  function ExponentMark(s: string, from: nat): (k: int)
    decreases |s| - from
    ensures k == -1 || (from <= k < |s| && IsExponentMark(s[k]))
    ensures k == -1 ==> forall i :: from <= i < |s| ==> !IsExponentMark(s[i])
    ensures k >= 0 ==> forall i :: from <= i < k ==> !IsExponentMark(s[i])
  {
    if from >= |s| then -1
    else if IsExponentMark(s[from]) then from
    else ExponentMark(s, from + 1)
  }

  /** The exponent of `new BigDecimal(s)`: an optional sign and at least one digit. */
  function ParseExponent(s: string): (r: Result<int>)
    ensures r.Failure? ==> r.error == NumberFormat
  {
    var negative := |s| > 0 && s[0] == '-';
    var digits := if |s| > 0 && (s[0] == '-' || s[0] == '+') then s[1..] else s;
    if |digits| == 0 || !AllDigits(digits) then Failure(NumberFormat)
    else
      var magnitude: int := DigitsValue(digits);
      Success(if negative then -magnitude else magnitude)
  }

  /**
   * `new BigDecimal(s)`: plain decimal text, optionally followed by `e` or `E` and a signed
   * exponent, which is taken off the scale; a scale outside the `int` range is rejected.
   */
  function ParseDecimal(s: string): (r: Result<Decimal>)
    ensures r.Failure? ==> r.error == NumberFormat
    ensures (forall i :: 0 <= i < |s| ==> !IsExponentMark(s[i])) ==> r == ParsePlainDecimal(s)
    ensures r.Success? ==> IsInt32(r.value.scale) || ExponentMark(s, 0) < 0
  {
    var k := ExponentMark(s, 0);
    if k < 0 then ParsePlainDecimal(s)
    else
      var m :- ParsePlainDecimal(s[..k]);
      var e :- ParseExponent(s[k + 1..]);
      if IsInt32(m.scale - e) then Success(Decimal(m.unscaled, m.scale - e)) else Failure(NumberFormat)
  }

  /** Plain decimal text that parses holds only signs, digits and a point, so no exponent mark. */
  lemma PlainLacksExponent(s: string)
    requires ParsePlainDecimal(s).Success?
    ensures forall i :: 0 <= i < |s| ==> !IsExponentMark(s[i])
  {
    var body := if |s| > 0 && (s[0] == '-' || s[0] == '+') then s[1..] else s;
    var parts := Split(body, '.');
    assert |parts| <= 2 && AllDigits(parts[0]) && (|parts| == 2 ==> AllDigits(parts[1]));
    hide ParsePlainDecimal;
    PiecesLackExponent(body, parts);
    forall i | 0 <= i < |s|
      ensures !IsExponentMark(s[i])
    {
      if s != body && i > 0 {
        assert s[i] == body[i - 1];
      }
    }
  }

  /** Text that splits at points into at most two runs of digits has no exponent mark. */
  lemma PiecesLackExponent(body: string, parts: seq<string>)
    requires parts == Split(body, '.')
    requires |parts| <= 2 && AllDigits(parts[0]) && (|parts| == 2 ==> AllDigits(parts[1]))
    ensures forall i :: 0 <= i < |body| ==> !IsExponentMark(body[i])
  {
    var k := IndexOf(body, '.');
    if k < 0 {
      assert parts == [body];
    } else {
      var rest := body[k + 1..];
      assert parts == [body[..k]] + Split(rest, '.');
      assert |Split(rest, '.')| == 1;
      assert IndexOf(rest, '.') < 0;
      assert parts[1] == rest;
      forall i | 0 <= i < |body|
        ensures !IsExponentMark(body[i])
      {
        if i > k {
          assert body[i] == rest[i - k - 1];
        } else if i < k {
          assert body[i] == parts[0][i];
        }
      }
    }
  }

  /**
   * Plain decimal text `p` followed by `E` and an exponent `n` parses as `p` with `n` taken off
   * its scale, when the new scale is an `int`: `1E+1` is ten at scale -1.
   */
  lemma ParseExponentForm(p: string, sign: string, n: nat)
    requires ParsePlainDecimal(p).Success?
    requires sign == "" || sign == "+" || sign == "-"
    ensures var m := ParsePlainDecimal(p).value;
      var e: int := if sign == "-" then -(n as int) else n as int;
      ParseDecimal(p + "E" + sign + NatToString(n))
      == if IsInt32(m.scale - e) then Success(Decimal(m.unscaled, m.scale - e)) else Failure(NumberFormat)
  {
    hide *;
    var digits := NatToString(n);
    var t := "E" + sign + digits;
    var s := p + t;
    assert p + "E" + sign + digits == s;
    assert |t| > 0 && IsExponentMark(t[0]) by {
      assert t[0] == 'E';
      IsExponentMarkE();
    }
    PlainLacksExponent(p);
    MarkAfterPlain(p, t);
    assert s[..|p|] == p && s[|p| + 1..] == sign + digits;
    ParseExponentOf(sign, n);
    ParseDecimalAtParts(s, |p|);
    WithExponentOf(ParsePlainDecimal(p).value, if sign == "-" then -(n as int) else n as int);
  }

  lemma IsExponentMarkE()
    ensures IsExponentMark('E')
  {
  }

  lemma WithExponentOf(m: Decimal, e: int)
    ensures WithExponent(Success(m), Success(e))
      == if IsInt32(m.scale - e) then Success(Decimal(m.unscaled, m.scale - e)) else Failure(NumberFormat)
  {
  }

  /** Without an exponent mark, `ParseDecimal` is `ParsePlainDecimal`. */
  lemma ParseDecimalNoMark(s: string)
    requires ExponentMark(s, 0) < 0
    ensures ParseDecimal(s) == ParsePlainDecimal(s)
  {
    hide ParsePlainDecimal, ParseExponent, ExponentMark;
  }

  /** A parsed mantissa with a parsed exponent taken off its scale; any failure or an out-of-range scale is refused. */
  ghost function WithExponent(m: Result<Decimal>, e: Result<int>): Result<Decimal> {
    if m.Failure? || e.Failure? then Failure(NumberFormat)
    else if IsInt32(m.value.scale - e.value) then Success(Decimal(m.value.unscaled, m.value.scale - e.value))
    else Failure(NumberFormat)
  }

  /** `ParseDecimalAt` with its two parts named. */
  lemma ParseDecimalAtParts(s: string, k: nat)
    requires k < |s| && ExponentMark(s, 0) == k
    ensures ParseDecimal(s) == WithExponent(ParsePlainDecimal(s[..k]), ParseExponent(s[k + 1..]))
  {
    ParseDecimalAt(s, k);
    hide ParsePlainDecimal, ParseExponent, ExponentMark, ParseDecimal;
  }

  /** `ParseDecimal` taken one step, once the first exponent mark is known. */
  lemma ParseDecimalAt(s: string, k: nat)
    requires k < |s| && ExponentMark(s, 0) == k
    ensures ParseDecimal(s) ==
      if ParsePlainDecimal(s[..k]).Failure? then Failure(NumberFormat)
      else if ParseExponent(s[k + 1..]).Failure? then Failure(NumberFormat)
      else
        var m := ParsePlainDecimal(s[..k]).value;
        var e := ParseExponent(s[k + 1..]).value;
        if IsInt32(m.scale - e) then Success(Decimal(m.unscaled, m.scale - e)) else Failure(NumberFormat)
  {
    hide ParsePlainDecimal, ParseExponent, ExponentMark;
  }

  /** The first mark of `p + t` is the first character of `t`, when `p` has none and `t` starts with one. */
  lemma MarkAfterPlain(p: string, t: string)
    requires forall i :: 0 <= i < |p| ==> !IsExponentMark(p[i])
    requires |t| > 0 && IsExponentMark(t[0])
    ensures ExponentMark(p + t, 0) == |p|
  {
    var s := p + t;
    assert forall i :: 0 <= i < |p| ==> s[i] == p[i];
    assert s[|p|] == t[0];
  }

  /** A sign and the digits of `n` parse as the exponent `n`, negated after a minus. */
  lemma ParseExponentOf(sign: string, n: nat)
    requires sign == "" || sign == "+" || sign == "-"
    ensures ParseExponent(sign + NatToString(n)) == Success(if sign == "-" then -(n as int) else n as int)
  {
    var digits := NatToString(n);
    var t := sign + digits;
    assert IsDigit(digits[0]);
    assert (if |t| > 0 && (t[0] == '-' || t[0] == '+') then t[1..] else t) == digits;
    assert sign == "-" <==> |t| > 0 && t[0] == '-';
    DigitsValueOfNatToString(n);
    hide *;
    ParseExponentUnfold(t, sign == "-", digits);
  }

  /** One step of `ParseExponent` on a signed run of digits. */
  lemma ParseExponentUnfold(t: string, negative: bool, digits: string)
    requires negative <==> |t| > 0 && t[0] == '-'
    requires digits == (if |t| > 0 && (t[0] == '-' || t[0] == '+') then t[1..] else t)
    requires |digits| > 0 && AllDigits(digits)
    ensures var v: int := DigitsValue(digits); ParseExponent(t) == Success(if negative then -v else v)
  {
    hide DigitsValue, AllDigits;
  }

  /** Text without an exponent mark whose first character is no sign, digit or point is not a decimal. */
  lemma NotDecimal(s: string)
    requires |s| > 0 && forall i :: 0 <= i < |s| ==> !IsExponentMark(s[i])
    requires !IsDigit(s[0]) && s[0] != '-' && s[0] != '+' && s[0] != '.'
    ensures ParseDecimal(s).Failure?
  {
    assert ParseDecimal(s) == ParsePlainDecimal(s);
    SplitSpec(s, '.');
    var k := IndexOf(s, '.');
    var whole := Split(s, '.')[0];
    if k < 0 {
      assert whole == s;
    } else {
      assert k > 0;
      assert whole == s[..k];
    }
    assert |whole| > 0 && whole[0] == s[0];
    hide *;
    PlainWholeNotDigits(s, whole);
  }

  /** Plain decimal text whose unsigned whole part starts with a non-digit is refused. */
  lemma PlainWholeNotDigits(s: string, whole: string)
    requires |s| > 0 && s[0] != '-' && s[0] != '+'
    requires whole == Split(s, '.')[0] && |whole| > 0 && !IsDigit(whole[0])
    ensures ParsePlainDecimal(s).Failure?
  {
    assert !AllDigits(whole);
    hide *;
    PlainRefusesWhole(s, s);
  }

  /** Plain decimal text whose whole part is not all digits is refused. */
  lemma PlainRefusesWhole(s: string, body: string)
    requires body == (if |s| > 0 && (s[0] == '-' || s[0] == '+') then s[1..] else s)
    requires !AllDigits(Split(body, '.')[0])
    ensures ParsePlainDecimal(s).Failure?
  {
  }

  /** `new BigDecimal("1E+1")` is 1 at scale -1. */
  lemma OneEPlusOne()
    ensures ParseDecimal("1E+1") == Success(Decimal(1, -1))
  {
    var s := "1E+1";
    assert ExponentMark(s, 0) == 1 by {
      assert !IsExponentMark(s[0]) && IsExponentMark(s[1]);
    }
    assert s[..1] == "1" && s[2..] == "+1";
    assert ParsePlainDecimal("1") == Success(Decimal(1, 0)) by {
      OneText();
      ParseIntegralPlainString(Decimal(1, 0));
    }
    assert ParseExponent("+1") == Success(1) by {
      OneText();
      ParseExponentOf("+", 1);
    }
    assert IsInt32(0 - 1);
    hide *;
    ParseDecimalAtParts(s, 1);
  }

  lemma OneText()
    ensures NatToString(1) == "1" && PlainString(Decimal(1, 0)) == "1"
  {
    assert Pow10(0) == 1;
  }


  lemma DigitsLackPoint(s: string)
    requires AllDigits(s)
    ensures Lacks(s, '.')
  {
    forall i | 0 <= i < |s|
      ensures s[i] != '.'
    {
      assert IsDigit(s[i]);
    }
  }

  /**
   * `new BigDecimal(d.toPlainString())` equals `d`, scale included, for every decimal with a
   * non-negative scale.
   */
  lemma ParseDecimalOfPlainString(d: Decimal)
    requires d.scale >= 0
    ensures ParseDecimal(PlainString(d)) == Success(d)
  {
    if d.scale == 0 {
      ParseIntegralPlainString(d);
    } else {
      ParseFractionalPlainString(d);
    }
    PlainLacksExponent(PlainString(d));
  }

  /** A leading `+` before unsigned text is accepted and changes nothing. */
  lemma ParseDecimalPlus(s: string)
    requires |s| > 0 && IsDigit(s[0])
    ensures ParseDecimal("+" + s) == ParseDecimal(s)
  {
    var k := ExponentMark(s, 0);
    assert k != 0 by {
      assert !IsExponentMark(s[0]);
    }
    assert ExponentMark("+" + s, 0) == if k < 0 then -1 else k + 1 by {
      ExponentMarkShift(s);
    }
    hide *;
    if k < 0 {
      PlusWithoutMark(s);
    } else {
      PlusAtMark(s, k);
    }
  }

  lemma PlusWithoutMark(s: string)
    requires |s| > 0 && IsDigit(s[0])
    requires ExponentMark(s, 0) < 0 && ExponentMark("+" + s, 0) < 0
    ensures ParseDecimal("+" + s) == ParseDecimal(s)
  {
    hide *;
    ParsePlainDecimalPlus(s);
    ParseDecimalNoMark(s);
    ParseDecimalNoMark("+" + s);
  }

  lemma PlusAtMark(s: string, k: nat)
    requires |s| > 0 && IsDigit(s[0])
    requires 0 < k < |s| && ExponentMark(s, 0) == k && ExponentMark("+" + s, 0) == k + 1
    ensures ParseDecimal("+" + s) == ParseDecimal(s)
  {
    var t := "+" + s;
    assert ParsePlainDecimal(t[..k + 1]) == ParsePlainDecimal(s[..k]) by {
      assert t[..k + 1] == "+" + s[..k];
      ParsePlainDecimalPlus(s[..k]);
    }
    assert t[k + 2..] == s[k + 1..];
    hide *;
    ParseDecimalAtParts(s, k);
    ParseDecimalAtParts(t, k + 1);
  }

  lemma ParsePlainDecimalPlus(s: string)
    requires |s| > 0 && IsDigit(s[0])
    ensures ParsePlainDecimal("+" + s) == ParsePlainDecimal(s)
  {
    assert ("+" + s)[1..] == s;
  }

  /** Putting one character that is not a mark in front of `s` moves its first mark by one. */
  lemma ExponentMarkShift(s: string)
    ensures var k := ExponentMark(s, 0);
      ExponentMark("+" + s, 0) == if k < 0 then -1 else k + 1
  {
    var t := "+" + s;
    var k := ExponentMark(s, 0);
    var kt := ExponentMark(t, 0);
    assert forall i :: 0 <= i < |s| ==> t[i + 1] == s[i];
    if k >= 0 {
      assert t[k + 1] == s[k];
    }
  }

  lemma ParseIntegralPlainString(d: Decimal)
    requires d.scale == 0
    ensures ParsePlainDecimal(PlainString(d)) == Success(d)
  {
    var negative := d.unscaled < 0;
    var magnitude: nat := if negative then -d.unscaled else d.unscaled;
    var digits := NatToString(magnitude);
    DigitsValueOfNatToString(magnitude);
    assert d.unscaled * Pow10(0) == d.unscaled;
    assert PlainString(d) == (if negative then "-" else "") + digits;
    hide *;
    ParseIntegralParts(negative, digits);
  }

  /** A run of digits, signed or not, reads as that integer with scale 0. */
  lemma ParseIntegralParts(negative: bool, digits: string)
    requires AllDigits(digits) && |digits| > 0
    ensures var v: int := DigitsValue(digits);
      ParsePlainDecimal((if negative then "-" else "") + digits) == Success(Decimal(if negative then -v else v, 0))
  {
    var s := (if negative then "-" else "") + digits;
    assert IsDigit(digits[0]);
    assert negative <==> |s| > 0 && s[0] == '-';
    assert (if |s| > 0 && (s[0] == '-' || s[0] == '+') then s[1..] else s) == digits;
    DigitsLackPoint(digits);
    SplitSpec(digits, '.');
    hide *;
    ParseWholeUnfold(s, negative, digits);
  }

  /** One step of `ParsePlainDecimal` on a body without a point. */
  lemma ParseWholeUnfold(s: string, negative: bool, body: string)
    requires negative <==> |s| > 0 && s[0] == '-'
    requires body == (if |s| > 0 && (s[0] == '-' || s[0] == '+') then s[1..] else s)
    requires Split(body, '.') == [body]
    requires AllDigits(body) && |body| > 0
    ensures var v: int := DigitsValue(body);
      ParsePlainDecimal(s) == Success(Decimal(if negative then -v else v, 0))
  {
    var parts := Split(body, '.');
    assert parts[0] == body && |parts| == 1;
    assert AllDigits("");
    assert parts[0] + "" == body;
  }

  lemma ParseFractionalPlainString(d: Decimal)
    requires d.scale > 0
    ensures ParsePlainDecimal(PlainString(d)) == Success(d)
  {
    hide *;
    var negative := d.unscaled < 0;
    var padded := PaddedDigits(if negative then -d.unscaled else d.unscaled, d.scale);
    var k := |padded| - d.scale;
    var sign := if negative then "-" else "";
    PlainStringPointed(d);
    assert sign + padded[..k] + "." + padded[k..] == sign + (padded[..k] + "." + padded[k..]);
    SplitDigits(padded, k);
    ParsePointedParts(negative, padded[..k], padded[k..]);
  }

  lemma PlainStringPointed(d: Decimal)
    requires d.scale > 0
    ensures var padded := PaddedDigits(if d.unscaled < 0 then -d.unscaled else d.unscaled, d.scale);
      PlainString(d) ==
      (if d.unscaled < 0 then "-" else "") + padded[..|padded| - d.scale] + "." + padded[|padded| - d.scale..]
  {
  }

  /**
   * Digits, a point and digits, optionally after a minus sign, parse to the digits' value at the
   * scale of the digits after the point.
   */
  lemma ParsePointedParts(negative: bool, whole: string, fraction: string)
    requires AllDigits(whole) && AllDigits(fraction) && |whole| > 0
    ensures AllDigits(whole + fraction)
    ensures var v: int := DigitsValue(whole + fraction);
      ParsePlainDecimal((if negative then "-" else "") + (whole + "." + fraction)) ==
      Success(Decimal(if negative then -v else v, |fraction|))
  {
    var s := (if negative then "-" else "") + (whole + "." + fraction);
    var body := whole + "." + fraction;
    assert IsDigit(whole[0]);
    assert (if |s| > 0 && (s[0] == '-' || s[0] == '+') then s[1..] else s) == body;
    DigitsLackPoint(whole);
    DigitsLackPoint(fraction);
    SplitAround(whole, fraction, '.');
    assert AllDigits(whole + fraction) by {
      forall i | 0 <= i < |whole + fraction|
        ensures IsDigit((whole + fraction)[i])
      {
        if i >= |whole| {
          assert (whole + fraction)[i] == fraction[i - |whole|];
        }
      }
    }
    hide *;
    ParseDecimalUnfold(s, negative, body, whole, fraction);
  }

  /** `ParsePlainDecimal` taken one step, once the sign, the body and its pieces are known. */
  lemma ParseDecimalUnfold(s: string, negative: bool, body: string, whole: string, fraction: string)
    requires negative <==> |s| > 0 && s[0] == '-'
    requires body == (if |s| > 0 && (s[0] == '-' || s[0] == '+') then s[1..] else s)
    requires Split(body, '.') == [whole, fraction]
    requires AllDigits(whole) && AllDigits(fraction) && |whole| + |fraction| > 0 && AllDigits(whole + fraction)
    ensures var v: int := DigitsValue(whole + fraction);
      ParsePlainDecimal(s) == Success(Decimal(if negative then -v else v, |fraction|))
  {
  }

  /** `JsonElement.getAsString()`. A one-element array answers for its element. */
  function GsonAsString(j: Json): (r: Result<string>)
    ensures j.JStr? ==> r == Success(j.str)
    ensures j.JNull? || j.JObj? ==> r == Failure(UnsupportedOperation)
  {
    match j
    case JStr(s) => Success(s)
    case JNum(d) => Success(NumberText(d))
    case JBool(b) => Success(BoolText(b))
    case JArr(items) => if |items| == 1 then GsonAsString(items[0]) else Failure(IllegalState)
    case _ => Failure(UnsupportedOperation)
  }

  /** `JsonElement.getAsInt()`: a number is truncated and narrowed, a string goes through `Integer.parseInt`. */
  function GsonAsInt(j: Json): (r: Result<int>)
    ensures r.Success? ==> IsInt32(r.value)
    ensures j.JNum? && j.num.scale == 0 && IsInt32(j.num.unscaled) ==> r == Success(j.num.unscaled)
    ensures j.JNull? || j.JObj? ==> r == Failure(UnsupportedOperation)
  {
    match j
    case JNum(d) => Success(IntValue(d))
    case JStr(s) => ParseInt(s)
    case JBool(b) => Failure(NumberFormat)
    case JArr(items) => if |items| == 1 then GsonAsInt(items[0]) else Failure(IllegalState)
    case _ => Failure(UnsupportedOperation)
  }

  /**
   * Gson's `Integer` adapter reading a tree (`JsonTreeReader.nextInt`): a number goes through
   * `getAsInt`, a string must be an `int` in decimal (its `NumberFormatException` becomes a syntax
   * error), and any other token raises `IllegalStateException`. JSON `null` never reaches it here:
   * `Gson.fromJson` answers `null` first.
   */
  function GsonNextInt(j: Json): (r: Result<int>)
    ensures r.Success? ==> IsInt32(r.value)
    ensures j.JNum? ==> r == Success(IntValue(j.num))
    ensures j.JStr? ==> (r.Success? <==> ParseInt(j.str).Success?)
    ensures j.JStr? && r.Success? ==> r.value == ParseInt(j.str).value
    ensures !j.JNum? && !j.JStr? ==> r == Failure(IllegalState)
  {
    match j
    case JNum(d) => Success(IntValue(d))
    case JStr(s) => if ParseInt(s).Success? then Success(ParseInt(s).value) else Failure(Serialization)
    case _ => Failure(IllegalState)
  }

  /** `JsonElement.getAsBigDecimal()`: a number keeps its exact decimal, scale included. */
  function GsonAsDecimal(j: Json): (r: Result<Decimal>)
    ensures j.JNum? ==> r == Success(j.num)
    ensures j.JNull? || j.JObj? ==> r == Failure(UnsupportedOperation)
  {
    match j
    case JNum(d) => Success(d)
    case JStr(s) => ParseDecimal(s)
    case JBool(b) => Failure(NumberFormat)
    case JArr(items) => if |items| == 1 then GsonAsDecimal(items[0]) else Failure(IllegalState)
    case _ => Failure(UnsupportedOperation)
  }

  // ---------------------------------------------------------------------------
  // kotlinx.serialization accessors
  // ---------------------------------------------------------------------------

  /** `jsonPrimitive.content`: strings give their text, `null` gives "null", other elements are rejected. */
  function KotlinContent(j: Json): (r: Result<string>)
    ensures j.JStr? ==> r == Success(j.str)
    ensures j.JNull? ==> r == Success("null")
    ensures j.JArr? || j.JObj? ==> r == Failure(IllegalArgument)
  {
    match j
    case JStr(s) => Success(s)
    case JNum(d) => Success(NumberText(d))
    case JBool(b) => Success(BoolText(b))
    case JNull => Success("null")
    case _ => Failure(IllegalArgument)
  }

  /** `jsonArray`: the elements of an array; any other element is rejected. */
  function KotlinArray(j: Json): (r: Result<seq<Json>>)
    ensures j.JArr? <==> r.Success?
    ensures j.JArr? ==> r.value == j.items
    ensures r.Failure? ==> r.error == IllegalArgument
  {
    if j.JArr? then Success(j.items) else Failure(IllegalArgument)
  }

  /** `jsonObject`: the members of an object; any other element is rejected. */
  function KotlinObject(j: Json): (r: Result<map<string, Json>>)
    ensures j.JObj? <==> r.Success?
    ensures j.JObj? ==> r.value == j.fields
    ensures r.Failure? ==> r.error == IllegalArgument
  {
    if j.JObj? then Success(j.fields) else Failure(IllegalArgument)
  }

  // ---------------------------------------------------------------------------
  // Codecs
  // ---------------------------------------------------------------------------

  /** The encode/decode pair for one declared value type (a Gson adapter or a kotlinx serializer). */
  datatype Codec<!T> = Codec(encode: T -> Json, decode: Json -> Result<T>)

  /** Decoding what was encoded gives the value back. */
  ghost predicate RoundTrips<T(!new)>(c: Codec<T>) {
    forall v :: c.decode(c.encode(v)) == Success(v)
  }

  /** The codec never encodes a value as JSON `null`. */
  ghost predicate NeverNull<T(!new)>(c: Codec<T>) {
    forall v :: c.encode(v) != JNull
  }

  /**
   * The exception `Gson.fromJson` lets out when its adapter raises `e`: an `IllegalStateException`
   * is caught and rethrown as `JsonSyntaxException`; anything else passes through.
   */
  function FromJsonError(e: Exception): Exception {
    if e == IllegalState then Serialization else e
  }

  /** An adapter's outcome as `Gson.fromJson` reports it. */
  function GsonRethrow<T>(r: Result<T>): (r': Result<T>)
    ensures r'.Success? <==> r.Success?
    ensures r.Success? ==> r' == r
    ensures r.Failure? ==> r'.error == FromJsonError(r.error) && r'.error != IllegalState
  {
    match r
    case Success(_) => r
    case Failure(e) => Failure(FromJsonError(e))
  }

  /**
   * `Gson.fromJson(element, type)`: JSON `null` gives Java `null` without consulting the adapter;
   * anything else goes through the adapter, whose `IllegalStateException` comes out as a syntax error.
   */
  function GsonDecode<T>(c: Codec<T>, j: Json): (r: Result<Option<T>>)
    ensures j.JNull? ==> r == Success(None)
    ensures !j.JNull? ==> (r.Success? <==> c.decode(j).Success?)
    ensures !j.JNull? && r.Success? ==> r.value == Some(c.decode(j).value)
    ensures !j.JNull? && r.Failure? ==> r.error == FromJsonError(c.decode(j).error)
    ensures r.Failure? ==> r.error != IllegalState
  {
    if j.JNull? then Success(None)
    else
      var v :- GsonRethrow(c.decode(j));
      Success(Some(v))
  }
}
