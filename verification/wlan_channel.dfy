/** `WlanChannel`: the 2.4 GHz wireless LAN channels the camera accepts, sent as integers. */
module WlanChannels {
  import opened Wrappers
  import opened Numbers
  import opened Json
  import opened CodeTables

  /** A constant: its name in the source and its channel number (0 when not specified). */
  datatype WlanChannel = WlanChannel(name: string, value: int)

  const NotSpecified: WlanChannel := WlanChannel("NOT_SPECIFIED", 0)

  /** The constants in declaration order. */
  const Values: seq<WlanChannel> :=
    [NotSpecified, WlanChannel("_1", 1), WlanChannel("_6", 6), WlanChannel("_11", 11)]

  function Code(c: WlanChannel): int {
    c.value
  }

  lemma CodesIncreasing()
    ensures |Values| == 4 && Values[0] == NotSpecified && Values[3].value == 11
    ensures IncreasingKeys(Values, Code, Identity)
  {
  }

  /** The channel numbers strictly increase, so they are distinct and the class initialises. */
  lemma CodesDistinct()
    ensures DistinctKeys(Values, Code)
  {
    CodesIncreasing();
    IncreasingDistinct(Values, Code, Identity);
  }

  /** `JsonAdapter.deserialize`: `map.get(json.getAsInt())`. */
  function Deserialize(j: Json): (r: Result<Option<WlanChannel>>)
    ensures r.Success? <==> GsonAsInt(j).Success?
    ensures r.Success? ==> (r.value.None? <==> forall i :: 0 <= i < |Values| ==> Values[i].value != GsonAsInt(j).value)
    ensures r.Success? && r.value.Some? ==> r.value.value in Values && r.value.value.value == GsonAsInt(j).value
  {
    CodesDistinct();
    DeserializeIntSpec(Values, Code, j);
    DeserializeInt(Values, Code, j)
  }

  /** `JsonAdapter.serialize`: the channel number as a JSON number. */
  function Serialize(c: WlanChannel): Json {
    IntJson(c.value)
  }

  /** Serialising a constant and deserialising the result gives the constant back. */
  lemma RoundTrip(i: nat)
    requires i < |Values|
    ensures Deserialize(Serialize(Values[i])) == Success(Some(Values[i]))
  {
    CodesDistinct();
    IntRoundTrip(Values, Code, i);
  }

  /** `toString`: "Not Specified" for channel 0, the channel number otherwise. */
  function Text(c: WlanChannel): string {
    if c.value == 0 then "Not Specified" else IntToString(c.value)
  }

  /** Only `NOT_SPECIFIED` prints as "Not Specified"; every other channel prints its number, which parses back. */
  lemma TextSpec(i: nat)
    requires i < |Values|
    ensures Text(Values[i]) == "Not Specified" <==> i == 0
    ensures 0 < i ==> ParseInt(Text(Values[i])) == Success(Values[i].value)
  {
    CodesIncreasing();
    if 0 < i {
      IncreasingOrdered(Values, Code, Identity, 0, i);
      if i < 3 {
        IncreasingOrdered(Values, Code, Identity, i, 3);
      }
      ParseIntOfIntToString(Values[i].value);
      assert IsDigit(Text(Values[i])[0]);
    }
  }
}
