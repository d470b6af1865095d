/**
 * The Kotlin `AutoBracketProgram`: a data class over a non-empty parameter list, with a
 * hand-written serializer that writes the count but, when reading, takes the parameters alone.
 */
module KotlinAutoBracket {
  import opened Wrappers
  import opened Numbers
  import opened Json

  /**
   * One bracket shot, with the seven fields the class declares: the `Iso` value, the
   * `ShutterSpeed` value, the colour temperature, the exposure program, the `Aperture` value, the
   * `ExposureCompensation` value and the white balance. The `Double`-backed values are held as the
   * decimals they are written as, and the two enums as their wire names. Every field defaults to null.
   */
  datatype Parameter = Parameter(
    iso: Option<int>,
    shutterSpeed: Option<Decimal>,
    colorTemperature: Option<int>,
    exposureProgram: Option<string>,
    aperture: Option<Decimal>,
    exposureCompensation: Option<Decimal>,
    whiteBalance: Option<string>)

  /** A program: the data class's only property. */
  datatype Program = Program(parameters: seq<Parameter>)

  const NumberKey := "_bracketNumber"
  const ParametersKey := "_bracketParameters"
  const IsoKey := "iso"
  const ShutterSpeedKey := "shutterSpeed"
  const ColorTemperatureKey := "_colorTemperature"
  const ExposureProgramKey := "exposureProgram"
  const ApertureKey := "aperture"
  const ExposureCompensationKey := "exposureCompensation"
  const WhiteBalanceKey := "whiteBalance"

  /** The primary constructor: `init` requires a non-empty list. */
  function NewProgram(parameters: seq<Parameter>): (r: Result<Program>)
    ensures r.Success? <==> |parameters| > 0
    ensures r.Failure? ==> r.error == IllegalArgument
    ensures r.Success? ==> r.value.parameters == parameters
  {
    if |parameters| == 0 then Failure(IllegalArgument) else Success(Program(parameters))
  }

  /** What `init` guarantees of every program that exists. */
  predicate Valid(p: Program) {
    |p.parameters| > 0
  }

  /**
   * The secondary constructor `(parameter, vararg parameters)`: never fails, and its first
   * argument comes first.
   */
  function NewProgramOf(first: Parameter, rest: seq<Parameter>): (p: Program)
    ensures Valid(p) && p.parameters[0] == first && p.parameters[1..] == rest
  {
    NewProgram([first] + rest).value
  }

  // ---------------------------------------------------------------------------
  // Parameter: the plugin-generated serializer under the default `Json`
  // ---------------------------------------------------------------------------

  /** `m` with `key` set to the value in `v`, or `m` itself when `v` is null. */
  function With(m: map<string, Json>, key: string, v: Option<Json>): (r: map<string, Json>)
    ensures r.Keys == if v.Some? then m.Keys + {key} else m.Keys
    ensures v.Some? ==> r[key] == v.value
    ensures forall k :: k in m && k != key ==> r[k] == m[k]
  {
    if v.Some? then m[key := v.value] else m
  }

  function IntValueJson(v: Option<int>): (r: Option<Json>)
    ensures r.Some? <==> v.Some?
    ensures v.Some? ==> r.value == IntJson(v.value)
  {
    if v.Some? then Some(IntJson(v.value)) else None
  }

  function NumberValueJson(v: Option<Decimal>): (r: Option<Json>)
    ensures r.Some? <==> v.Some?
    ensures v.Some? ==> r.value == JNum(v.value)
  {
    if v.Some? then Some(JNum(v.value)) else None
  }

  function NameValueJson(v: Option<string>): (r: Option<Json>)
    ensures r.Some? <==> v.Some?
    ensures v.Some? ==> r.value == JStr(v.value)
  {
    if v.Some? then Some(JStr(v.value)) else None
  }

  /** A field is written only when it differs from its null default. */
  function ParameterJson(x: Parameter): (j: Json)
    ensures j.JObj?
  {
    var m := With(map[], IsoKey, IntValueJson(x.iso));
    var m := With(m, ShutterSpeedKey, NumberValueJson(x.shutterSpeed));
    var m := With(m, ColorTemperatureKey, IntValueJson(x.colorTemperature));
    var m := With(m, ExposureProgramKey, NameValueJson(x.exposureProgram));
    var m := With(m, ApertureKey, NumberValueJson(x.aperture));
    var m := With(m, ExposureCompensationKey, NumberValueJson(x.exposureCompensation));
    JObj(With(m, WhiteBalanceKey, NameValueJson(x.whiteBalance)))
  }

  /** Each declared member is written exactly when its field is set, with the field's value. */
  lemma ParameterMembers(x: Parameter)
    ensures var f := ParameterJson(x).fields;
      && f.Keys <= ParameterKeys
      && (IsoKey in f <==> x.iso.Some?) && (x.iso.Some? ==> f[IsoKey] == IntJson(x.iso.value))
      && (ShutterSpeedKey in f <==> x.shutterSpeed.Some?) && (x.shutterSpeed.Some? ==> f[ShutterSpeedKey] == JNum(x.shutterSpeed.value))
      && (ColorTemperatureKey in f <==> x.colorTemperature.Some?)
      && (x.colorTemperature.Some? ==> f[ColorTemperatureKey] == IntJson(x.colorTemperature.value))
      && (ExposureProgramKey in f <==> x.exposureProgram.Some?)
      && (x.exposureProgram.Some? ==> f[ExposureProgramKey] == JStr(x.exposureProgram.value))
      && (ApertureKey in f <==> x.aperture.Some?) && (x.aperture.Some? ==> f[ApertureKey] == JNum(x.aperture.value))
      && (ExposureCompensationKey in f <==> x.exposureCompensation.Some?)
      && (x.exposureCompensation.Some? ==> f[ExposureCompensationKey] == JNum(x.exposureCompensation.value))
      && (WhiteBalanceKey in f <==> x.whiteBalance.Some?)
      && (x.whiteBalance.Some? ==> f[WhiteBalanceKey] == JStr(x.whiteBalance.value))
  {
  }

  /** A nullable `Int` member: missing or `null` gives null; a number must be a whole `Int`. */
  function IntMember(fields: map<string, Json>, key: string): (r: Result<Option<int>>)
    ensures key !in fields || fields[key].JNull? ==> r == Success(None)
    ensures r.Success? && r.value.Some? ==> IsInt32(r.value.value)
    ensures r.Failure? ==> r.error == Serialization
  {
    if key !in fields || fields[key].JNull? then Success(None)
    else match fields[key]
      case JNum(d) => if d.scale == 0 && IsInt32(d.unscaled) then Success(Some(d.unscaled)) else Failure(Serialization)
      case _ => Failure(Serialization)
  }

  /** A nullable `Double` member: missing or `null` gives null; otherwise it must be a number. */
  function NumberMember(fields: map<string, Json>, key: string): (r: Result<Option<Decimal>>)
    ensures key !in fields || fields[key].JNull? ==> r == Success(None)
    ensures key in fields && fields[key].JNum? ==> r == Success(Some(fields[key].num))
    ensures r.Failure? ==> r.error == Serialization
  {
    if key !in fields || fields[key].JNull? then Success(None)
    else if fields[key].JNum? then Success(Some(fields[key].num))
    else Failure(Serialization)
  }

  /**
   * A nullable enum member: missing or `null` gives null; otherwise the tree decoder takes the
   * primitive's `content` as the constant's name, whether the primitive is a string, a number or a
   * boolean. Only an array or an object is rejected.
   */
  function NameMember(fields: map<string, Json>, key: string): (r: Result<Option<string>>)
    ensures key !in fields || fields[key].JNull? ==> r == Success(None)
    ensures key in fields && !fields[key].JNull? && KotlinContent(fields[key]).Success?
            ==> r == Success(Some(KotlinContent(fields[key]).value))
    ensures key in fields && fields[key].JStr? ==> r == Success(Some(fields[key].str))
    ensures r.Failure? <==> key in fields && (fields[key].JArr? || fields[key].JObj?)
    ensures r.Failure? ==> r.error == Serialization
  {
    if key !in fields || fields[key].JNull? then Success(None)
    else match KotlinContent(fields[key])
      case Success(name) => Success(Some(name))
      case Failure(_) => Failure(Serialization)
  }

  /** The member names the class declares. */
  const ParameterKeys: set<string> :=
    {IsoKey, ShutterSpeedKey, ColorTemperatureKey, ExposureProgramKey, ApertureKey, ExposureCompensationKey, WhiteBalanceKey}

  /** The declared members of `fields`, the only ones a format that ignores unknown keys looks at. */
  function Declared(fields: map<string, Json>): (d: map<string, Json>)
    ensures d.Keys == fields.Keys * ParameterKeys
    ensures forall k :: k in d ==> d[k] == fields[k]
  {
    map k | k in fields && k in ParameterKeys :: fields[k]
  }

  /**
   * Decoding a parameter under a `Json` whose `ignoreUnknownKeys` is as given: the default `Json`
   * (false) rejects an object with an undeclared member; the option set's format (true) skips it.
   */
  function DecodeParameter(ignoreUnknownKeys: bool, j: Json): (r: Result<Parameter>)
    ensures !j.JObj? ==> r == Failure(Serialization)
    ensures j.JObj? && !ignoreUnknownKeys && !(j.fields.Keys <= ParameterKeys) ==> r == Failure(Serialization)
    ensures r.Failure? ==> r.error == Serialization
  {
    if !j.JObj? then Failure(Serialization)
    else if !ignoreUnknownKeys && !(j.fields.Keys <= ParameterKeys) then Failure(Serialization)
    else
      var iso :- IntMember(j.fields, IsoKey);
      var shutterSpeed :- NumberMember(j.fields, ShutterSpeedKey);
      var colorTemperature :- IntMember(j.fields, ColorTemperatureKey);
      var exposureProgram :- NameMember(j.fields, ExposureProgramKey);
      var aperture :- NumberMember(j.fields, ApertureKey);
      var exposureCompensation :- NumberMember(j.fields, ExposureCompensationKey);
      var whiteBalance :- NameMember(j.fields, WhiteBalanceKey);
      Success(Parameter(iso, shutterSpeed, colorTemperature, exposureProgram, aperture, exposureCompensation, whiteBalance))
  }

  /** Every member reader gives the same answer on an object and on its declared members. */
  lemma DeclaredMembersAgree(fields: map<string, Json>)
    ensures var d := Declared(fields);
      && IntMember(d, IsoKey) == IntMember(fields, IsoKey)
      && NumberMember(d, ShutterSpeedKey) == NumberMember(fields, ShutterSpeedKey)
      && IntMember(d, ColorTemperatureKey) == IntMember(fields, ColorTemperatureKey)
      && NameMember(d, ExposureProgramKey) == NameMember(fields, ExposureProgramKey)
      && NumberMember(d, ApertureKey) == NumberMember(fields, ApertureKey)
      && NumberMember(d, ExposureCompensationKey) == NumberMember(fields, ExposureCompensationKey)
      && NameMember(d, WhiteBalanceKey) == NameMember(fields, WhiteBalanceKey)
  {
    var d := Declared(fields);
    assert IsoKey in d <==> IsoKey in fields;
    assert ShutterSpeedKey in d <==> ShutterSpeedKey in fields;
    assert ColorTemperatureKey in d <==> ColorTemperatureKey in fields;
    assert ExposureProgramKey in d <==> ExposureProgramKey in fields;
    assert ApertureKey in d <==> ApertureKey in fields;
    assert ExposureCompensationKey in d <==> ExposureCompensationKey in fields;
    assert WhiteBalanceKey in d <==> WhiteBalanceKey in fields;
  }

  /**
   * The two settings of `ignoreUnknownKeys`: ignoring them reads an object as the default `Json`
   * reads its declared members alone, and the default `Json` agrees with it exactly on objects
   * without undeclared members.
   */
  lemma UnknownKeys(fields: map<string, Json>)
    ensures DecodeParameter(true, JObj(fields)) == DecodeParameter(false, JObj(Declared(fields)))
    ensures DecodeParameter(false, JObj(fields))
         == if fields.Keys <= ParameterKeys then DecodeParameter(true, JObj(fields)) else Failure(Serialization)
  {
    DeclaredMembersAgree(fields);
    assert Declared(fields).Keys <= ParameterKeys;
  }

  /** A parameter whose integers are `Int`s. */
  predicate InRange(x: Parameter) {
    (x.iso.Some? ==> IsInt32(x.iso.value)) && (x.colorTemperature.Some? ==> IsInt32(x.colorTemperature.value))
  }

  lemma ParameterRoundTrip(ignoreUnknownKeys: bool, x: Parameter)
    requires InRange(x)
    ensures DecodeParameter(ignoreUnknownKeys, ParameterJson(x)) == Success(x)
  {
    ParameterMembers(x);
  }

  /** `{"iso": 100, "aperture": 2.0}` reads as a parameter with those two fields and the rest null. */
  lemma IsoAndApertureDecode()
    ensures DecodeParameter(false, JObj(map[IsoKey := IntJson(100), ApertureKey := JNum(Decimal(20, 1))]))
         == Success(Parameter(Some(100), None, None, None, Some(Decimal(20, 1)), None, None))
  {
    var fields := map[IsoKey := IntJson(100), ApertureKey := JNum(Decimal(20, 1))];
    assert fields.Keys <= ParameterKeys;
    assert IntMember(fields, IsoKey) == Success(Some(100));
  }

  /**
   * `{"iso": 100, "_filter": "off"}`: the option set's format skips the undeclared `_filter` and
   * reads iso 100; the default `Json` rejects the object.
   */
  lemma UndeclaredMemberSkipped()
    ensures DecodeParameter(true, JObj(map[IsoKey := IntJson(100), "_filter" := JStr("off")]))
         == Success(Parameter(Some(100), None, None, None, None, None, None))
    ensures DecodeParameter(false, JObj(map[IsoKey := IntJson(100), "_filter" := JStr("off")])) == Failure(Serialization)
  {
    var fields := map[IsoKey := IntJson(100), "_filter" := JStr("off")];
    assert "_filter" in fields.Keys && "_filter" !in ParameterKeys;
    assert IntMember(fields, IsoKey) == Success(Some(100));
  }

  /** A number where an enum is expected is read through its text: `{"exposureProgram": 2}` names the constant "2". */
  lemma NumericName()
    ensures DecodeParameter(false, JObj(map[ExposureProgramKey := IntJson(2)]))
         == Success(Parameter(None, None, None, Some(NumberText(Decimal(2, 0))), None, None, None))
  {
    var fields := map[ExposureProgramKey := IntJson(2)];
    assert fields.Keys <= ParameterKeys;
    assert NameMember(fields, ExposureProgramKey) == Success(Some(NumberText(Decimal(2, 0))));
  }

  // ---------------------------------------------------------------------------
  // AutoBracketProgramSerializer
  // ---------------------------------------------------------------------------

  function ParametersJson(xs: seq<Parameter>): (js: seq<Json>)
    ensures |js| == |xs|
    ensures forall i :: 0 <= i < |xs| ==> js[i] == ParameterJson(xs[i])
  {
    if |xs| == 0 then [] else [ParameterJson(xs[0])] + ParametersJson(xs[1..])
  }

  /** `serialize`: the list's size under `_bracketNumber` and the parameters, in order, under `_bracketParameters`. */
  function Serialize(p: Program): (j: Json)
    ensures j.JObj? && j.fields.Keys == {NumberKey, ParametersKey}
    ensures j.fields[NumberKey] == IntJson(|p.parameters|)
    ensures j.fields[ParametersKey] == JArr(ParametersJson(p.parameters))
  {
    JObj(map[NumberKey := IntJson(|p.parameters|), ParametersKey := JArr(ParametersJson(p.parameters))])
  }

  function DecodeParameters(ignoreUnknownKeys: bool, js: seq<Json>): (r: Result<seq<Parameter>>)
    ensures r.Success? ==> |r.value| == |js|
    ensures r.Failure? ==> r.error == Serialization
  {
    if |js| == 0 then Success([])
    else
      var x :- DecodeParameter(ignoreUnknownKeys, js[0]);
      var rest :- DecodeParameters(ignoreUnknownKeys, js[1..]);
      Success([x] + rest)
  }

  /**
   * `deserialize`: `jsonObject["_bracketParameters"]!!.jsonArray`, each element decoded as a
   * parameter by `decoder.json`, the `Json` the program is being read with, then the primary
   * constructor. `_bracketNumber` is never read.
   */
  function Deserialize(ignoreUnknownKeys: bool, j: Json): (r: Result<Program>)
    ensures !j.JObj? ==> r == Failure(IllegalArgument)
    ensures j.JObj? && ParametersKey !in j.fields ==> r == Failure(NullPointer)
    ensures j.JObj? && ParametersKey in j.fields && !j.fields[ParametersKey].JArr? ==> r == Failure(IllegalArgument)
    ensures j.JObj? && ParametersKey in j.fields && j.fields[ParametersKey] == JArr([]) ==> r == Failure(IllegalArgument)
    ensures r.Success? ==> Valid(r.value)
  {
    var fields :- KotlinObject(j);
    if ParametersKey !in fields then Failure(NullPointer)
    else
      var items :- KotlinArray(fields[ParametersKey]);
      var parameters :- DecodeParameters(ignoreUnknownKeys, items);
      NewProgram(parameters)
  }

  lemma {:induction false} ParametersRoundTrip(ignoreUnknownKeys: bool, xs: seq<Parameter>)
    requires forall i :: 0 <= i < |xs| ==> InRange(xs[i])
    ensures DecodeParameters(ignoreUnknownKeys, ParametersJson(xs)) == Success(xs)
  {
    if |xs| > 0 {
      ParameterRoundTrip(ignoreUnknownKeys, xs[0]);
      ParametersRoundTrip(ignoreUnknownKeys, xs[1..]);
      assert ParametersJson(xs)[1..] == ParametersJson(xs[1..]);
      assert [xs[0]] + xs[1..] == xs;
    }
  }

  /** Every program whose integers are `Int`s reads back from what `serialize` writes, under either format. */
  lemma RoundTrip(ignoreUnknownKeys: bool, p: Program)
    requires Valid(p) && forall i :: 0 <= i < |p.parameters| ==> InRange(p.parameters[i])
    ensures Deserialize(ignoreUnknownKeys, Serialize(p)) == Success(p)
  {
    ParametersRoundTrip(ignoreUnknownKeys, p.parameters);
  }

  /**
   * Reading never consults `_bracketNumber`: whatever it holds, or whether it is there at all,
   * the result is the same, so a count that disagrees with the list is silently dropped.
   */
  lemma IgnoresNumber(ignoreUnknownKeys: bool, fields: map<string, Json>, n: Json)
    ensures Deserialize(ignoreUnknownKeys, JObj(fields[NumberKey := n])) == Deserialize(ignoreUnknownKeys, JObj(fields))
    ensures Deserialize(ignoreUnknownKeys, JObj(fields - {NumberKey})) == Deserialize(ignoreUnknownKeys, JObj(fields))
  {
    var with := fields[NumberKey := n];
    var without := fields - {NumberKey};
    assert ParametersKey in with <==> ParametersKey in fields;
    assert ParametersKey in without <==> ParametersKey in fields;
    if ParametersKey in fields {
      assert with[ParametersKey] == fields[ParametersKey];
      assert without[ParametersKey] == fields[ParametersKey];
    }
  }

  // ---------------------------------------------------------------------------
  // The fixture of the unit test
  // ---------------------------------------------------------------------------

  /** `Parameter(iso = Iso.AUTO, shutterSpeed = ShutterSpeed.AUTO, colorTemperature = 5500)`. */
  const TestParameter := Parameter(Some(0), Some(Decimal(0, 1)), Some(5500), None, None, None, None)

  const TestProgram := NewProgramOf(TestParameter, [])

  /** The test's expected JSON as written: the temperature under `colorTemperature`. */
  const TestJsonAsWritten := JObj(map[
    NumberKey := IntJson(1),
    ParametersKey := JArr([JObj(map[IsoKey := IntJson(0), ShutterSpeedKey := JNum(Decimal(0, 1)),
                                    "colorTemperature" := IntJson(5500)])])])

  /**
   * Against the fixture as written, both tests, which use the default `Json`, fail: encoding writes `_colorTemperature`, so the
   * encoded program differs from the fixture, and decoding the fixture meets the undeclared key
   * `colorTemperature` and raises a serialization error.
   */
  lemma TestAsWrittenFails()
    ensures Serialize(TestProgram) != TestJsonAsWritten
    ensures Deserialize(false, TestJsonAsWritten) == Failure(Serialization)
  {
    var shot := ParameterJson(TestParameter);
    assert ColorTemperatureKey in shot.fields;
    assert Serialize(TestProgram).fields[ParametersKey].items[0] == shot;
    var written := TestJsonAsWritten.fields[ParametersKey].items[0];
    assert ColorTemperatureKey !in written.fields;
    assert "colorTemperature" !in ParameterKeys;
    assert DecodeParameter(false, written) == Failure(Serialization);
  }

  /** The fixture with the key the field is serialised under. */
  const TestJson := JObj(map[
    NumberKey := IntJson(1),
    ParametersKey := JArr([JObj(map[IsoKey := IntJson(0), ShutterSpeedKey := JNum(Decimal(0, 1)),
                                    ColorTemperatureKey := IntJson(5500)])])])

  /** With `_colorTemperature`, the program encodes to the fixture and the fixture decodes to the program. */
  lemma TestPasses()
    ensures Serialize(TestProgram) == TestJson
    ensures Deserialize(false, TestJson) == Success(TestProgram)
  {
    assert TestProgram.parameters == [TestParameter];
    var shot := map[IsoKey := IntJson(0), ShutterSpeedKey := JNum(Decimal(0, 1)), ColorTemperatureKey := IntJson(5500)];
    assert ParameterJson(TestParameter).fields.Keys == shot.Keys;
    assert ParameterJson(TestParameter).fields == shot;
    assert ParametersJson(TestProgram.parameters) == [JObj(shot)];
    RoundTrip(false, TestProgram);
  }
}
