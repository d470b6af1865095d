/** `Aperture`: the F-numbers the camera offers, sent as exact decimals. */
module Apertures {
  import opened Wrappers
  import opened Numbers
  import opened Json
  import opened CodeTables

  /** A constant: its name in the source and its F-number as a `BigDecimal`. */
  datatype Aperture = Aperture(name: string, value: Decimal)

  const F2_0: Aperture := Aperture("F2_0", Decimal(20, 1))

  /** The constants in declaration order: F2.0, F2.1, F3.5 and F5.6, each with one decimal place. */
  const Values: seq<Aperture> :=
    [F2_0, Aperture("F2_1", Decimal(21, 1)), Aperture("F3_5", Decimal(35, 1)), Aperture("F5_6", Decimal(56, 1))]

  function Value(a: Aperture): Decimal {
    a.value
  }

  lemma ValuesIncreasing()
    ensures IncreasingKeys(Values, Value, Units)
  {
  }

  /** The values strictly increase, so they are distinct and the class initialises. */
  lemma ValuesDistinct()
    ensures DistinctKeys(Values, Value)
  {
    ValuesIncreasing();
    IncreasingDistinct(Values, Value, Units);
  }

  /** `JsonAdapter.deserialize`: `map.get(json.getAsBigDecimal())`, an exact lookup, scale included. */
  function Deserialize(j: Json): (r: Result<Option<Aperture>>)
    ensures r.Success? <==> GsonAsDecimal(j).Success?
    ensures r.Success? ==> (r.value.None? <==> forall i :: 0 <= i < |Values| ==> Values[i].value != GsonAsDecimal(j).value)
    ensures r.Success? && r.value.Some? ==> r.value.value in Values && r.value.value.value == GsonAsDecimal(j).value
  {
    ValuesDistinct();
    DeserializeDecimalSpec(Values, Value, j);
    DeserializeDecimal(Values, Value, j)
  }

  /** `JsonAdapter.serialize`: the value as a JSON number. */
  function Serialize(a: Aperture): Json {
    JNum(a.value)
  }

  /** Serialising a constant and deserialising the result gives the constant back. */
  lemma RoundTrip(i: nat)
    requires i < |Values|
    ensures Deserialize(Serialize(Values[i])) == Success(Some(Values[i]))
  {
    ValuesDistinct();
    DecimalRoundTrip(Values, Value, i);
  }

  /** The number written `2.0` decodes to F2.0, and F2.0 is written back as `2.0`. */
  lemma TwoPointZero()
    ensures ParseDecimal("2.0") == Success(F2_0.value)
    ensures Deserialize(JNum(F2_0.value)) == Success(Some(F2_0))
    ensures Serialize(F2_0).JNum? && NumberText(Serialize(F2_0).num) == "2.0"
  {
    PlainTwo();
    ParseDecimalOfPlainString(F2_0.value);
    RoundTrip(0);
  }

  lemma PlainTwo()
    ensures PlainString(F2_0.value) == "2.0"
  {
  }

  /** The same number at another scale is not in the table: `2` and `2.00` decode to `null`. */
  lemma OtherScalesMiss()
    ensures SameValue(Decimal(2, 0), F2_0.value) && SameValue(Decimal(200, 2), F2_0.value)
    ensures Deserialize(JNum(Decimal(2, 0))) == Success(None)
    ensures Deserialize(JNum(Decimal(200, 2))) == Success(None)
  {
  }

  /** `toString`: "F" followed by the plain decimal. */
  function Text(a: Aperture): string {
    "F" + PlainString(a.value)
  }

  /** A constant prints as "F" and its plain value, which parses back to the very same decimal. */
  lemma TextSpec(a: Aperture)
    requires a.value.scale >= 0
    ensures Text(a)[0] == 'F'
    ensures ParseDecimal(Text(a)[1..]) == Success(a.value)
  {
    assert Text(a)[1..] == PlainString(a.value);
    ParseDecimalOfPlainString(a.value);
  }

  /** F2.0 prints as "F2.0". */
  lemma TextOfF2()
    ensures Text(F2_0) == "F2.0"
  {
    PlainTwo();
  }
}
