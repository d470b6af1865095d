/**
 * `ShutterSpeed`: the exposure times the camera offers. Each constant carries its time in seconds
 * (the value sent on the wire, as an exact decimal) and the numerator and denominator of the
 * fraction it is displayed as.
 */
module ShutterSpeeds {
  import opened Wrappers
  import opened Numbers
  import opened Json
  import opened CodeTables

  /** A constant: its name in the source, its time in seconds and its display fraction. */
  datatype ShutterSpeed = ShutterSpeed(name: string, value: Decimal, numerator: Decimal, denominator: Decimal)

  const Auto: ShutterSpeed := ShutterSpeed("AUTO", Decimal(0, 0), Decimal(0, 0), Decimal(1, 0))
  const S1_25000: ShutterSpeed := ShutterSpeed("_1_25000", Decimal(4, 5), Decimal(1, 0), Decimal(25000, 0))
  const S1_1000: ShutterSpeed := ShutterSpeed("_1_1000", Decimal(1, 3), Decimal(1, 0), Decimal(1000, 0))
  const S1_10: ShutterSpeed := ShutterSpeed("_1_10", Decimal(1, 1), Decimal(1, 0), Decimal(10, 0))
  const S1: ShutterSpeed := ShutterSpeed("_1", Decimal(1, 0), Decimal(1, 0), Decimal(1, 0))
  const S15: ShutterSpeed := ShutterSpeed("_15", Decimal(15, 0), Decimal(15, 0), Decimal(1, 0))

  const Block1: seq<ShutterSpeed> :=
    [Auto,
     S1_25000,
     ShutterSpeed("_1_20000", Decimal(5, 5), Decimal(1, 0), Decimal(20000, 0)),
     ShutterSpeed("_1_16000", Decimal(625, 7), Decimal(1, 0), Decimal(16000, 0)),
     ShutterSpeed("_1_12500", Decimal(8, 5), Decimal(1, 0), Decimal(12500, 0)),
     ShutterSpeed("_1_10000", Decimal(1, 4), Decimal(1, 0), Decimal(10000, 0)),
     ShutterSpeed("_1_8000", Decimal(125, 6), Decimal(1, 0), Decimal(8000, 0)),
     ShutterSpeed("_1_6400", Decimal(15625, 8), Decimal(1, 0), Decimal(6400, 0)),
     ShutterSpeed("_1_5000", Decimal(2, 4), Decimal(1, 0), Decimal(5000, 0)),
     ShutterSpeed("_1_4000", Decimal(25, 5), Decimal(1, 0), Decimal(4000, 0))]

  const Block2: seq<ShutterSpeed> :=
    [ShutterSpeed("_1_3200", Decimal(3125, 7), Decimal(1, 0), Decimal(3200, 0)),
     ShutterSpeed("_1_2500", Decimal(4, 4), Decimal(1, 0), Decimal(2500, 0)),
     ShutterSpeed("_1_2000", Decimal(5, 4), Decimal(1, 0), Decimal(2000, 0)),
     ShutterSpeed("_1_1600", Decimal(625, 6), Decimal(1, 0), Decimal(1600, 0)),
     ShutterSpeed("_1_1250", Decimal(8, 4), Decimal(1, 0), Decimal(1250, 0)),
     S1_1000,
     ShutterSpeed("_1_800", Decimal(125, 5), Decimal(1, 0), Decimal(800, 0)),
     ShutterSpeed("_1_640", Decimal(15625, 7), Decimal(1, 0), Decimal(640, 0)),
     ShutterSpeed("_1_500", Decimal(2, 3), Decimal(1, 0), Decimal(500, 0)),
     ShutterSpeed("_1_400", Decimal(25, 4), Decimal(1, 0), Decimal(400, 0))]

  const Block3: seq<ShutterSpeed> :=
    [ShutterSpeed("_1_320", Decimal(3125, 6), Decimal(1, 0), Decimal(320, 0)),
     ShutterSpeed("_1_250", Decimal(4, 3), Decimal(1, 0), Decimal(250, 0)),
     ShutterSpeed("_1_200", Decimal(5, 3), Decimal(1, 0), Decimal(200, 0)),
     ShutterSpeed("_1_160", Decimal(625, 5), Decimal(1, 0), Decimal(160, 0)),
     ShutterSpeed("_1_125", Decimal(8, 3), Decimal(1, 0), Decimal(125, 0)),
     ShutterSpeed("_1_100", Decimal(1, 2), Decimal(1, 0), Decimal(100, 0)),
     ShutterSpeed("_1_80", Decimal(125, 4), Decimal(1, 0), Decimal(80, 0)),
     ShutterSpeed("_1_60", Decimal(1666666, 8), Decimal(1, 0), Decimal(60, 0)),
     ShutterSpeed("_1_50", Decimal(2, 2), Decimal(1, 0), Decimal(50, 0)),
     ShutterSpeed("_1_40", Decimal(25, 3), Decimal(1, 0), Decimal(40, 0))]

  const Block4: seq<ShutterSpeed> :=
    [ShutterSpeed("_1_30", Decimal(3333333, 8), Decimal(1, 0), Decimal(30, 0)),
     ShutterSpeed("_1_25", Decimal(4, 2), Decimal(1, 0), Decimal(25, 0)),
     ShutterSpeed("_1_20", Decimal(5, 2), Decimal(1, 0), Decimal(20, 0)),
     ShutterSpeed("_1_15", Decimal(6666666, 8), Decimal(1, 0), Decimal(15, 0)),
     ShutterSpeed("_1_13", Decimal(7692307, 8), Decimal(1, 0), Decimal(13, 0)),
     S1_10,
     ShutterSpeed("_1_8", Decimal(125, 3), Decimal(1, 0), Decimal(8, 0)),
     ShutterSpeed("_1_6", Decimal(16666666, 8), Decimal(1, 0), Decimal(6, 0)),
     ShutterSpeed("_1_5", Decimal(2, 1), Decimal(1, 0), Decimal(5, 0)),
     ShutterSpeed("_1_4", Decimal(25, 2), Decimal(1, 0), Decimal(4, 0))]

  const Block5: seq<ShutterSpeed> :=
    [ShutterSpeed("_1_3", Decimal(33333333, 8), Decimal(1, 0), Decimal(3, 0)),
     ShutterSpeed("_1_2P5", Decimal(4, 1), Decimal(1, 0), Decimal(25, 1)),
     ShutterSpeed("_1_2", Decimal(5, 1), Decimal(1, 0), Decimal(2, 0)),
     ShutterSpeed("_1_1P6", Decimal(625, 3), Decimal(1, 0), Decimal(16, 1)),
     ShutterSpeed("_1_1P3", Decimal(76923076, 8), Decimal(1, 0), Decimal(13, 1)),
     S1,
     ShutterSpeed("_1P3", Decimal(13, 1), Decimal(13, 1), Decimal(1, 0)),
     ShutterSpeed("_1P6", Decimal(16, 1), Decimal(16, 1), Decimal(1, 0)),
     ShutterSpeed("_2", Decimal(2, 0), Decimal(2, 0), Decimal(1, 0)),
     ShutterSpeed("_2P5", Decimal(25, 1), Decimal(25, 1), Decimal(1, 0))]

  const Block6: seq<ShutterSpeed> :=
    [ShutterSpeed("_3P2", Decimal(32, 1), Decimal(32, 1), Decimal(1, 0)),
     ShutterSpeed("_4", Decimal(4, 0), Decimal(4, 0), Decimal(1, 0)),
     ShutterSpeed("_5", Decimal(5, 0), Decimal(5, 0), Decimal(1, 0)),
     ShutterSpeed("_6", Decimal(6, 0), Decimal(6, 0), Decimal(1, 0)),
     ShutterSpeed("_8", Decimal(8, 0), Decimal(8, 0), Decimal(1, 0)),
     ShutterSpeed("_10", Decimal(10, 0), Decimal(10, 0), Decimal(1, 0)),
     ShutterSpeed("_13", Decimal(13, 0), Decimal(13, 0), Decimal(1, 0)),
     S15,
     ShutterSpeed("_20", Decimal(20, 0), Decimal(20, 0), Decimal(1, 0)),
     ShutterSpeed("_25", Decimal(25, 0), Decimal(25, 0), Decimal(1, 0))]

  const Block7: seq<ShutterSpeed> :=
    [ShutterSpeed("_30", Decimal(30, 0), Decimal(30, 0), Decimal(1, 0)),
     ShutterSpeed("_60", Decimal(60, 0), Decimal(60, 0), Decimal(1, 0))]

  /** The constants in declaration order, written in blocks of ten. */
  const Values: seq<ShutterSpeed> := Block1 + Block2 + Block3 + Block4 + Block5 + Block6 + Block7

  function Value(s: ShutterSpeed): Decimal {
    s.value
  }

  /**
   * The time is the display fraction cut off after at most eight decimal places:
   * `value <= numerator / denominator < value + 10^-8`.
   */
  ghost predicate Truncates(s: ShutterSpeed) {
    Units(s.value) * Units(s.denominator) <= Units(s.numerator) * 100000000 < (Units(s.value) + 1) * Units(s.denominator)
  }

  ghost predicate AllTruncate(t: seq<ShutterSpeed>) {
    forall i :: 0 <= i < |t| ==> Truncates(t[i])
  }

  lemma TruncateConcat(a: seq<ShutterSpeed>, b: seq<ShutterSpeed>)
    requires AllTruncate(a) && AllTruncate(b)
    ensures AllTruncate(a + b)
  {
    forall i | 0 <= i < |a + b|
      ensures Truncates((a + b)[i])
    {
      if i < |a| {
        assert (a + b)[i] == a[i];
      } else {
        assert (a + b)[i] == b[i - |a|];
      }
    }
  }

  lemma Block1Ordered()
    ensures |Block1| == 10 && Units(Block1[0].value) == 0 && Units(Block1[9].value) == 25000
    ensures IncreasingKeys(Block1, Value, Units)
  {
    assert Units(Block1[0].value) < Units(Block1[1].value);
    assert Units(Block1[1].value) < Units(Block1[2].value);
    assert Units(Block1[2].value) < Units(Block1[3].value);
    assert Units(Block1[3].value) < Units(Block1[4].value);
    assert Units(Block1[4].value) < Units(Block1[5].value);
    assert Units(Block1[5].value) < Units(Block1[6].value);
    assert Units(Block1[6].value) < Units(Block1[7].value);
    assert Units(Block1[7].value) < Units(Block1[8].value);
    assert Units(Block1[8].value) < Units(Block1[9].value);
  }

  lemma Block1Truncates()
    ensures AllTruncate(Block1)
  {
    assert Truncates(Block1[0]);
    assert Truncates(Block1[1]);
    assert Truncates(Block1[2]);
    assert Truncates(Block1[3]);
    assert Truncates(Block1[4]);
    assert Truncates(Block1[5]);
    assert Truncates(Block1[6]);
    assert Truncates(Block1[7]);
    assert Truncates(Block1[8]);
    assert Truncates(Block1[9]);
  }

  lemma Block2Ordered()
    ensures |Block2| == 10 && Units(Block2[0].value) == 31250 && Units(Block2[9].value) == 250000
    ensures IncreasingKeys(Block2, Value, Units)
  {
    assert Units(Block2[0].value) < Units(Block2[1].value);
    assert Units(Block2[1].value) < Units(Block2[2].value);
    assert Units(Block2[2].value) < Units(Block2[3].value);
    assert Units(Block2[3].value) < Units(Block2[4].value);
    assert Units(Block2[4].value) < Units(Block2[5].value);
    assert Units(Block2[5].value) < Units(Block2[6].value);
    assert Units(Block2[6].value) < Units(Block2[7].value);
    assert Units(Block2[7].value) < Units(Block2[8].value);
    assert Units(Block2[8].value) < Units(Block2[9].value);
  }

  lemma Block2Truncates()
    ensures AllTruncate(Block2)
  {
    assert Truncates(Block2[0]);
    assert Truncates(Block2[1]);
    assert Truncates(Block2[2]);
    assert Truncates(Block2[3]);
    assert Truncates(Block2[4]);
    assert Truncates(Block2[5]);
    assert Truncates(Block2[6]);
    assert Truncates(Block2[7]);
    assert Truncates(Block2[8]);
    assert Truncates(Block2[9]);
  }

  lemma Block3Ordered()
    ensures |Block3| == 10 && Units(Block3[0].value) == 312500 && Units(Block3[9].value) == 2500000
    ensures IncreasingKeys(Block3, Value, Units)
  {
    assert Units(Block3[0].value) < Units(Block3[1].value);
    assert Units(Block3[1].value) < Units(Block3[2].value);
    assert Units(Block3[2].value) < Units(Block3[3].value);
    assert Units(Block3[3].value) < Units(Block3[4].value);
    assert Units(Block3[4].value) < Units(Block3[5].value);
    assert Units(Block3[5].value) < Units(Block3[6].value);
    assert Units(Block3[6].value) < Units(Block3[7].value);
    assert Units(Block3[7].value) < Units(Block3[8].value);
    assert Units(Block3[8].value) < Units(Block3[9].value);
  }

  lemma Block3Truncates()
    ensures AllTruncate(Block3)
  {
    assert Truncates(Block3[0]);
    assert Truncates(Block3[1]);
    assert Truncates(Block3[2]);
    assert Truncates(Block3[3]);
    assert Truncates(Block3[4]);
    assert Truncates(Block3[5]);
    assert Truncates(Block3[6]);
    assert Truncates(Block3[7]);
    assert Truncates(Block3[8]);
    assert Truncates(Block3[9]);
  }

  lemma Block4Ordered()
    ensures |Block4| == 10 && Units(Block4[0].value) == 3333333 && Units(Block4[9].value) == 25000000
    ensures IncreasingKeys(Block4, Value, Units)
  {
    assert Units(Block4[0].value) < Units(Block4[1].value);
    assert Units(Block4[1].value) < Units(Block4[2].value);
    assert Units(Block4[2].value) < Units(Block4[3].value);
    assert Units(Block4[3].value) < Units(Block4[4].value);
    assert Units(Block4[4].value) < Units(Block4[5].value);
    assert Units(Block4[5].value) < Units(Block4[6].value);
    assert Units(Block4[6].value) < Units(Block4[7].value);
    assert Units(Block4[7].value) < Units(Block4[8].value);
    assert Units(Block4[8].value) < Units(Block4[9].value);
  }

  lemma Block4Truncates()
    ensures AllTruncate(Block4)
  {
    assert Truncates(Block4[0]);
    assert Truncates(Block4[1]);
    assert Truncates(Block4[2]);
    assert Truncates(Block4[3]);
    assert Truncates(Block4[4]);
    assert Truncates(Block4[5]);
    assert Truncates(Block4[6]);
    assert Truncates(Block4[7]);
    assert Truncates(Block4[8]);
    assert Truncates(Block4[9]);
  }

  lemma Block5Ordered()
    ensures |Block5| == 10 && Units(Block5[0].value) == 33333333 && Units(Block5[9].value) == 250000000
    ensures IncreasingKeys(Block5, Value, Units)
  {
    assert Units(Block5[0].value) < Units(Block5[1].value);
    assert Units(Block5[1].value) < Units(Block5[2].value);
    assert Units(Block5[2].value) < Units(Block5[3].value);
    assert Units(Block5[3].value) < Units(Block5[4].value);
    assert Units(Block5[4].value) < Units(Block5[5].value);
    assert Units(Block5[5].value) < Units(Block5[6].value);
    assert Units(Block5[6].value) < Units(Block5[7].value);
    assert Units(Block5[7].value) < Units(Block5[8].value);
    assert Units(Block5[8].value) < Units(Block5[9].value);
  }

  lemma Block5Truncates()
    ensures AllTruncate(Block5)
  {
    assert Truncates(Block5[0]);
    assert Truncates(Block5[1]);
    assert Truncates(Block5[2]);
    assert Truncates(Block5[3]);
    assert Truncates(Block5[4]);
    assert Truncates(Block5[5]);
    assert Truncates(Block5[6]);
    assert Truncates(Block5[7]);
    assert Truncates(Block5[8]);
    assert Truncates(Block5[9]);
  }

  lemma Block6Ordered()
    ensures |Block6| == 10 && Units(Block6[0].value) == 320000000 && Units(Block6[9].value) == 2500000000
    ensures IncreasingKeys(Block6, Value, Units)
  {
    assert Units(Block6[0].value) < Units(Block6[1].value);
    assert Units(Block6[1].value) < Units(Block6[2].value);
    assert Units(Block6[2].value) < Units(Block6[3].value);
    assert Units(Block6[3].value) < Units(Block6[4].value);
    assert Units(Block6[4].value) < Units(Block6[5].value);
    assert Units(Block6[5].value) < Units(Block6[6].value);
    assert Units(Block6[6].value) < Units(Block6[7].value);
    assert Units(Block6[7].value) < Units(Block6[8].value);
    assert Units(Block6[8].value) < Units(Block6[9].value);
  }

  lemma Block6Truncates()
    ensures AllTruncate(Block6)
  {
    assert Truncates(Block6[0]);
    assert Truncates(Block6[1]);
    assert Truncates(Block6[2]);
    assert Truncates(Block6[3]);
    assert Truncates(Block6[4]);
    assert Truncates(Block6[5]);
    assert Truncates(Block6[6]);
    assert Truncates(Block6[7]);
    assert Truncates(Block6[8]);
    assert Truncates(Block6[9]);
  }

  lemma Block7Ordered()
    ensures |Block7| == 2 && Units(Block7[0].value) == 3000000000 && Units(Block7[1].value) == 6000000000
    ensures IncreasingKeys(Block7, Value, Units)
  {
    assert Units(Block7[0].value) < Units(Block7[1].value);
  }

  lemma Block7Truncates()
    ensures AllTruncate(Block7)
  {
    assert Truncates(Block7[0]);
    assert Truncates(Block7[1]);
  }

  /**
   * The 62 times strictly increase, so they are distinct and the class initialises; and every
   * constant's time agrees with its display fraction.
   */
  lemma TableFacts()
    ensures |Values| == 62
    ensures IncreasingKeys(Values, Value, Units) && DistinctKeys(Values, Value)
    ensures forall i :: 0 <= i < |Values| ==> Truncates(Values[i])
  {
    Block1Ordered();
    Block1Truncates();
    Block2Ordered();
    Block2Truncates();
    Block3Ordered();
    Block3Truncates();
    Block4Ordered();
    Block4Truncates();
    Block5Ordered();
    Block5Truncates();
    Block6Ordered();
    Block6Truncates();
    Block7Ordered();
    Block7Truncates();
    IncreasingConcat(Block1, Block2, Value, Units);
    TruncateConcat(Block1, Block2);
    IncreasingConcat(Block1 + Block2, Block3, Value, Units);
    TruncateConcat(Block1 + Block2, Block3);
    IncreasingConcat(Block1 + Block2 + Block3, Block4, Value, Units);
    TruncateConcat(Block1 + Block2 + Block3, Block4);
    IncreasingConcat(Block1 + Block2 + Block3 + Block4, Block5, Value, Units);
    TruncateConcat(Block1 + Block2 + Block3 + Block4, Block5);
    IncreasingConcat(Block1 + Block2 + Block3 + Block4 + Block5, Block6, Value, Units);
    TruncateConcat(Block1 + Block2 + Block3 + Block4 + Block5, Block6);
    IncreasingConcat(Block1 + Block2 + Block3 + Block4 + Block5 + Block6, Block7, Value, Units);
    TruncateConcat(Block1 + Block2 + Block3 + Block4 + Block5 + Block6, Block7);
    IncreasingDistinct(Values, Value, Units);
  }

  /** `JsonAdapter.deserialize`: `map.get(json.getAsBigDecimal())`, an exact lookup, scale included. */
  function Deserialize(j: Json): (r: Result<Option<ShutterSpeed>>)
    ensures r.Success? <==> GsonAsDecimal(j).Success?
    ensures r.Success? ==> (r.value.None? <==> forall i :: 0 <= i < |Values| ==> Values[i].value != GsonAsDecimal(j).value)
    ensures r.Success? && r.value.Some? ==> r.value.value in Values && r.value.value.value == GsonAsDecimal(j).value
  {
    TableFacts();
    DeserializeDecimalSpec(Values, Value, j);
    DeserializeDecimal(Values, Value, j)
  }

  /** `JsonAdapter.serialize`: the time as a JSON number. */
  function Serialize(s: ShutterSpeed): Json {
    JNum(s.value)
  }

  /** Serialising a constant and deserialising the result gives the constant back. */
  lemma RoundTrip(i: nat)
    requires i < |Values|
    ensures Deserialize(Serialize(Values[i])) == Success(Some(Values[i]))
  {
    TableFacts();
    DecimalRoundTrip(Values, Value, i);
  }

  /** The same round trip for a constant given by value rather than by position. */
  lemma RoundTripListed(s: ShutterSpeed)
    requires s in Values
    ensures Deserialize(Serialize(s)) == Success(Some(s))
  {
    var i :| 0 <= i < |Values| && Values[i] == s;
    RoundTrip(i);
  }

  lemma Positions()
    ensures Values[15] == S1_1000 && Values[35] == S1_10 && Values[45] == S1
    ensures Units(S1.value) == 100000000
  {
  }

  /**
   * The times written 0.001, 0.1 and 1 decode to 1/1000 s, 1/10 s and 1 s, while 1.0, the same
   * number as 1 at another scale, matches no constant.
   */
  lemma TestTimes()
    ensures Deserialize(JNum(Decimal(1, 3))) == Success(Some(S1_1000))
    ensures Deserialize(JNum(Decimal(1, 1))) == Success(Some(S1_10))
    ensures Deserialize(JNum(Decimal(1, 0))) == Success(Some(S1))
    ensures Deserialize(JNum(Decimal(10, 1))) == Success(None)
  {
    Positions();
    RoundTrip(15);
    RoundTrip(35);
    RoundTrip(45);
    forall i | 0 <= i < |Values|
      ensures Values[i].value != Decimal(10, 1)
    {
      NotOnePointZero(i);
    }
  }

  /** Only `_1` has the value of one second in units, and it is written at scale 0. */
  lemma NotOnePointZero(i: nat)
    requires i < |Values|
    ensures Values[i].value != Decimal(10, 1)
  {
    TableFacts();
    Positions();
    if i < 45 {
      IncreasingOrdered(Values, Value, Units, i, 45);
    } else if i > 45 {
      IncreasingOrdered(Values, Value, Units, 45, i);
    }
  }
}
