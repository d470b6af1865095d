/** `ExposureCompensation`: the exposure compensation steps, sent as exact decimals. */
module ExposureCompensations {
  import opened Wrappers
  import opened Numbers
  import opened Json
  import opened CodeTables

  /** A constant: its name in the source and its step in EV as a `BigDecimal`. */
  datatype ExposureCompensation = ExposureCompensation(name: string, value: Decimal)

  const Minus2_0: ExposureCompensation := ExposureCompensation("MINUS_2_0", Decimal(-20, 1))
  const Zero: ExposureCompensation := ExposureCompensation("_0_0", Decimal(0, 1))
  const Plus0_3: ExposureCompensation := ExposureCompensation("PLUS_0_3", Decimal(3, 1))

  /** The constants in declaration order: -2.0 to 2.0 in thirds of a stop, each with one decimal place. */
  const Values: seq<ExposureCompensation> :=
    [Minus2_0, ExposureCompensation("MINUS_1_7", Decimal(-17, 1)),
     ExposureCompensation("MINUS_1_3", Decimal(-13, 1)), ExposureCompensation("MINUS_1_0", Decimal(-10, 1)),
     ExposureCompensation("MINUS_0_7", Decimal(-7, 1)), ExposureCompensation("MINUS_0_3", Decimal(-3, 1)),
     Zero, Plus0_3, ExposureCompensation("PLUS_0_7", Decimal(7, 1)),
     ExposureCompensation("PLUS_1_0", Decimal(10, 1)), ExposureCompensation("PLUS_1_3", Decimal(13, 1)),
     ExposureCompensation("PLUS_1_7", Decimal(17, 1)), ExposureCompensation("PLUS_2_0", Decimal(20, 1))]

  function Value(e: ExposureCompensation): Decimal {
    e.value
  }

  lemma ValuesIncreasing()
    ensures |Values| == 13
    ensures IncreasingKeys(Values, Value, Units)
  {
  }

  /** The values strictly increase, so they are distinct and the class initialises. */
  lemma ValuesDistinct()
    ensures DistinctKeys(Values, Value)
  {
    ValuesIncreasing();
    IncreasingDistinct(Values, Value, Units);
  }

  /** `JsonAdapter.deserialize`: `map.get(json.getAsBigDecimal())`, an exact lookup, scale included. */
  function Deserialize(j: Json): (r: Result<Option<ExposureCompensation>>)
    ensures r.Success? <==> GsonAsDecimal(j).Success?
    ensures r.Success? ==> (r.value.None? <==> forall i :: 0 <= i < |Values| ==> Values[i].value != GsonAsDecimal(j).value)
    ensures r.Success? && r.value.Some? ==> r.value.value in Values && r.value.value.value == GsonAsDecimal(j).value
  {
    ValuesDistinct();
    DeserializeDecimalSpec(Values, Value, j);
    DeserializeDecimal(Values, Value, j)
  }

  /** `JsonAdapter.serialize`: the value as a JSON number. */
  function Serialize(e: ExposureCompensation): Json {
    JNum(e.value)
  }

  /** Serialising a constant and deserialising the result gives the constant back. */
  lemma RoundTrip(i: nat)
    requires i < |Values|
    ensures Deserialize(Serialize(Values[i])) == Success(Some(Values[i]))
  {
    ValuesDistinct();
    DecimalRoundTrip(Values, Value, i);
  }

  /** `toString`: a "+" for a positive step only, then the plain decimal, then "EV". */
  function Text(e: ExposureCompensation): string {
    (if Signum(e.value) > 0 then "+" else "") + PlainString(e.value) + "EV"
  }

  /**
   * The text starts with "+" exactly for a positive step and with "-" exactly for a negative one,
   * ends with "EV", and what precedes "EV" parses back to the step, scale included.
   */
  lemma TextSpec(e: ExposureCompensation)
    requires e.value.scale >= 0
    ensures |Text(e)| >= 3 && Text(e)[|Text(e)| - 2..] == "EV"
    ensures Text(e)[0] == '+' <==> e.value.unscaled > 0
    ensures Text(e)[0] == '-' <==> e.value.unscaled < 0
    ensures ParseDecimal(Text(e)[..|Text(e)| - 2]) == Success(e.value)
  {
    var p := PlainString(e.value);
    ParseDecimalOfPlainString(e.value);
    if e.value.unscaled > 0 {
      assert Text(e)[..|Text(e)| - 2] == "+" + p;
      ParseDecimalPlus(p);
    } else {
      assert Text(e)[..|Text(e)| - 2] == p;
      assert IsDigit(p[0]) || p[0] == '-';
    }
  }

  /** The zero step prints without a sign, a positive one with "+", and -2.0 as "-2.0EV". */
  lemma TextExamples()
    ensures Text(Zero) == "0.0EV" && Text(Plus0_3) == "+0.3EV" && Text(Minus2_0) == "-2.0EV"
  {
    assert PlainString(Zero.value) == "0.0";
    assert PlainString(Plus0_3.value) == "0.3";
    assert PlainString(Minus2_0.value) == "-2.0" by {
      assert PaddedDigits(20, 1) == "20";
    }
  }
}
