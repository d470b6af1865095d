/** `ApiVersion`: the versions of the camera's Web API, their integer codes and display names. */
module ApiVersions {
  import opened Wrappers
  import opened Numbers
  import opened Json
  import opened CodeTables

  /** A constant: its name in the source, its code and the name `toString` returns. */
  datatype ApiVersion = ApiVersion(name: string, value: int, text: string)

  const V2_0: ApiVersion := ApiVersion("V2_0", 1, "v2.0")
  const V2_1: ApiVersion := ApiVersion("V2_1", 2, "v2.1")

  /** The constants in declaration order. */
  const Values: seq<ApiVersion> := [V2_0, V2_1]

  function Code(v: ApiVersion): int {
    v.value
  }

  /** The two codes differ, so the class initialises. */
  lemma CodesDistinct()
    ensures DistinctKeys(Values, Code)
  {
    assert IncreasingKeys(Values, Code, Identity);
    IncreasingDistinct(Values, Code, Identity);
  }

  /** `JsonAdapter.deserialize`: `map.get(json.getAsInt())`. */
  function Deserialize(j: Json): (r: Result<Option<ApiVersion>>)
    ensures r.Success? <==> GsonAsInt(j).Success?
    ensures r.Success? ==> (r.value.None? <==> forall i :: 0 <= i < |Values| ==> Values[i].value != GsonAsInt(j).value)
    ensures r.Success? && r.value.Some? ==> r.value.value in Values && r.value.value.value == GsonAsInt(j).value
  {
    CodesDistinct();
    DeserializeIntSpec(Values, Code, j);
    DeserializeInt(Values, Code, j)
  }

  /** `JsonAdapter.serialize`: the code as a JSON number. */
  function Serialize(v: ApiVersion): Json {
    IntJson(v.value)
  }

  /** `toString`: the display name. */
  function Text(v: ApiVersion): string {
    v.text
  }

  /** Serialising a constant and deserialising the result gives the constant back. */
  lemma RoundTrip(i: nat)
    requires i < |Values|
    ensures Deserialize(Serialize(Values[i])) == Success(Some(Values[i]))
  {
    CodesDistinct();
    IntRoundTrip(Values, Code, i);
  }

  /** Version 2.0 travels as 1 and version 2.1 as 2, in both directions, and they print as "v2.0" and "v2.1". */
  lemma KnownCodes()
    ensures Serialize(V2_0) == IntJson(1) && Deserialize(IntJson(1)) == Success(Some(V2_0))
    ensures Serialize(V2_1) == IntJson(2) && Deserialize(IntJson(2)) == Success(Some(V2_1))
    ensures Text(V2_0) == "v2.0" && Text(V2_1) == "v2.1"
  {
    RoundTrip(0);
    RoundTrip(1);
  }

  /** Any other code decodes to `null`. */
  lemma UnknownCode(n: int)
    requires IsInt32(n) && n != 1 && n != 2
    ensures Deserialize(IntJson(n)) == Success(None)
  {
    assert GsonAsInt(IntJson(n)) == Success(n);
  }
}
