/** `ExposureProgram`: the camera's exposure programs and the integer codes they are sent as. */
module ExposurePrograms {
  import opened Wrappers
  import opened Numbers
  import opened Json
  import opened CodeTables

  /** A constant: its name in the source and its code. */
  datatype ExposureProgram = ExposureProgram(name: string, value: int)

  /** The constants in declaration order. */
  const Values: seq<ExposureProgram> :=
    [ExposureProgram("MANUAL", 1), ExposureProgram("AUTO", 2), ExposureProgram("APERTURE", 3),
     ExposureProgram("SHUTTER_SPEED", 4), ExposureProgram("ISO_SPEED", 9)]

  function Code(p: ExposureProgram): int {
    p.value
  }

  lemma CodesIncreasing()
    ensures IncreasingKeys(Values, Code, Identity)
  {
  }

  /** The codes strictly increase, so they are distinct and the class initialises. */
  lemma CodesDistinct()
    ensures DistinctKeys(Values, Code)
  {
    CodesIncreasing();
    IncreasingDistinct(Values, Code, Identity);
  }

  /** `JsonAdapter.deserialize`: `map.get(json.getAsInt())`. */
  function Deserialize(j: Json): (r: Result<Option<ExposureProgram>>)
    ensures r.Success? <==> GsonAsInt(j).Success?
    ensures r.Success? ==> (r.value.None? <==> forall i :: 0 <= i < |Values| ==> Values[i].value != GsonAsInt(j).value)
    ensures r.Success? && r.value.Some? ==> r.value.value in Values && r.value.value.value == GsonAsInt(j).value
  {
    CodesDistinct();
    DeserializeIntSpec(Values, Code, j);
    DeserializeInt(Values, Code, j)
  }

  /** `JsonAdapter.serialize`: the code as a JSON number. */
  function Serialize(p: ExposureProgram): Json {
    IntJson(p.value)
  }

  /** Serialising a constant and deserialising the result gives the constant back. */
  lemma RoundTrip(i: nat)
    requires i < |Values|
    ensures Deserialize(Serialize(Values[i])) == Success(Some(Values[i]))
  {
    CodesDistinct();
    IntRoundTrip(Values, Code, i);
  }

  /** The codes 5 to 8 sit in a gap of the table and decode to `null`. */
  lemma GapDecodesToNull(n: int)
    requires 5 <= n <= 8
    ensures Deserialize(IntJson(n)) == Success(None)
  {
    CodesIncreasing();
    forall i | 0 <= i < |Values|
      ensures Values[i].value != n
    {
      if i < 4 {
        IncreasingOrdered(Values, Code, Identity, i, 4);
      }
    }
  }
}
