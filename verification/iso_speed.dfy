/** `ISOSpeed`: the camera's ISO sensitivities and the integer codes they are sent as. */
module IsoSpeeds {
  import opened Wrappers
  import opened Numbers
  import opened Json
  import opened CodeTables

  /** A constant: its name in the source and its code (0 for automatic). */
  datatype IsoSpeed = IsoSpeed(name: string, value: int)

  const Auto: IsoSpeed := IsoSpeed("AUTO", 0)

  /** The constants in declaration order. */
  const Values: seq<IsoSpeed> :=
    [Auto, IsoSpeed("_64", 64), IsoSpeed("_80", 80), IsoSpeed("_100", 100), IsoSpeed("_125", 125),
     IsoSpeed("_160", 160), IsoSpeed("_200", 200), IsoSpeed("_250", 250), IsoSpeed("_320", 320),
     IsoSpeed("_400", 400), IsoSpeed("_500", 500), IsoSpeed("_640", 640), IsoSpeed("_800", 800),
     IsoSpeed("_1000", 1000), IsoSpeed("_1250", 1250), IsoSpeed("_1600", 1600),
     IsoSpeed("_2000", 2000), IsoSpeed("_2500", 2500), IsoSpeed("_3200", 3200),
     IsoSpeed("_4000", 4000), IsoSpeed("_5000", 5000), IsoSpeed("_6400", 6400)]

  function Code(s: IsoSpeed): int {
    s.value
  }

  lemma CodesIncreasing()
    ensures |Values| == 22 && Values[0] == Auto && Values[21].value == 6400
    ensures IncreasingKeys(Values, Code, Identity)
  {
  }

  /** The 22 codes strictly increase, so they are distinct and the class initialises. */
  lemma CodesDistinct()
    ensures DistinctKeys(Values, Code)
  {
    CodesIncreasing();
    IncreasingDistinct(Values, Code, Identity);
  }

  /** Every code lies between `AUTO`'s 0 and the last constant's 6400. */
  lemma CodeRange(i: nat)
    requires i < |Values|
    ensures 0 <= Values[i].value <= 6400
    ensures 0 < i ==> 0 < Values[i].value
  {
    CodesIncreasing();
    if 0 < i {
      IncreasingOrdered(Values, Code, Identity, 0, i);
    }
    if i < 21 {
      IncreasingOrdered(Values, Code, Identity, i, 21);
    }
  }

  /** `JsonAdapter.deserialize`: `map.get(json.getAsInt())`. */
  function Deserialize(j: Json): (r: Result<Option<IsoSpeed>>)
    ensures r.Success? <==> GsonAsInt(j).Success?
    ensures r.Success? ==> (r.value.None? <==> forall i :: 0 <= i < |Values| ==> Values[i].value != GsonAsInt(j).value)
    ensures r.Success? && r.value.Some? ==> r.value.value in Values && r.value.value.value == GsonAsInt(j).value
  {
    CodesDistinct();
    DeserializeIntSpec(Values, Code, j);
    DeserializeInt(Values, Code, j)
  }

  /** `JsonAdapter.serialize`: the code as a JSON number. */
  function Serialize(s: IsoSpeed): Json {
    IntJson(s.value)
  }

  /** Serialising a constant and deserialising the result gives the constant back. */
  lemma RoundTrip(i: nat)
    requires i < |Values|
    ensures Deserialize(Serialize(Values[i])) == Success(Some(Values[i]))
  {
    CodesDistinct();
    CodeRange(i);
    IntRoundTrip(Values, Code, i);
  }

  /** The same round trip for a constant given by value rather than by position. */
  lemma RoundTripListed(s: IsoSpeed)
    requires s in Values
    ensures Deserialize(Serialize(s)) == Success(Some(s))
  {
    var i :| 0 <= i < |Values| && Values[i] == s;
    RoundTrip(i);
  }

  /** `toString`: "Auto" for `AUTO`, the decimal code otherwise. */
  function Text(s: IsoSpeed): string {
    if s == Auto then "Auto" else IntToString(s.value)
  }

  /** Only `AUTO` prints as "Auto"; every other constant prints its code, which parses back. */
  lemma TextSpec(i: nat)
    requires i < |Values|
    ensures Text(Values[i]) == "Auto" <==> i == 0
    ensures 0 < i ==> ParseInt(Text(Values[i])) == Success(Values[i].value)
  {
    CodesDistinct();
    CodeRange(i);
    if 0 < i {
      assert Values[i] != Values[0];
      ParseIntOfIntToString(Values[i].value);
      assert IsDigit(Text(Values[i])[0]);
    }
  }
}
