/**
 * The Java `AutoBracketProgram`, the value of the `_autoBracket` option: bracket parameters and
 * their count. The constructor checks its array but wraps it without copying, and Gson builds
 * programs reflectively, without running the constructor at all.
 */
module JavaAutoBracket {
  import opened Wrappers
  import opened Numbers
  import opened Json
  import IsoSpeeds
  import ShutterSpeeds

  /**
   * One bracket shot. The constructor never leaves `iso` or `shutterSpeed` null; an object Gson
   * built can have either one null.
   */
  datatype Parameter = Parameter(
    iso: Option<IsoSpeeds.IsoSpeed>,
    shutterSpeed: Option<ShutterSpeeds.ShutterSpeed>,
    colorTemperature: int)

  const NumberKey := "_bracketNumber"
  const ParametersKey := "_bracketParameters"
  const IsoKey := "iso"
  const ShutterSpeedKey := "shutterSpeed"
  const ColorTemperatureKey := "_colorTemperature"

  /** `new Parameter(iso, shutterSpeed, colorTemperature)`: `iso` is checked for null first, then `shutterSpeed`. */
  function NewParameter(iso: Option<IsoSpeeds.IsoSpeed>, shutterSpeed: Option<ShutterSpeeds.ShutterSpeed>,
                        colorTemperature: int): (r: Result<Parameter>)
    ensures r.Success? <==> iso.Some? && shutterSpeed.Some?
    ensures r.Failure? ==> r.error == NullPointer
    ensures r.Success? ==> r.value.iso == iso && r.value.shutterSpeed == shutterSpeed
    ensures r.Success? ==> r.value.colorTemperature == colorTemperature
  {
    if iso.None? then Failure(NullPointer)
    else if shutterSpeed.None? then Failure(NullPointer)
    else Success(Parameter(iso, shutterSpeed, colorTemperature))
  }

  // ---------------------------------------------------------------------------
  // Programs point into a heap of Java arrays and lists
  // ---------------------------------------------------------------------------

  /** The arrays and lists programs point to; a reference is an index. Elements may be null. */
  datatype Heap = Heap(lists: seq<seq<Option<Parameter>>>)

  /** A program object: its `number` field and its `parameters` reference (`None` for null). */
  datatype Program = Program(number: int, parameters: Option<nat>)

  predicate Allocated(h: Heap, p: Program) {
    p.parameters.Some? ==> p.parameters.value < |h.lists|
  }

  /** `getParameters()`, read through the reference at the time of the call. */
  function Parameters(h: Heap, p: Program): (r: Option<seq<Option<Parameter>>>)
    requires Allocated(h, p)
    ensures r.Some? <==> p.parameters.Some?
  {
    if p.parameters.None? then None else Some(h.lists[p.parameters.value])
  }

  /** What the constructor checks: a non-null, non-empty list without null elements, counted by `number`. */
  predicate Consistent(h: Heap, p: Program)
    requires Allocated(h, p)
  {
    && p.parameters.Some?
    && var ps := h.lists[p.parameters.value];
    && |ps| > 0 && None !in ps && p.number == |ps|
  }

  /**
   * `new AutoBracketProgram(parameters)` over the array `a` (`None` for a null array): null is
   * rejected, then an empty array, then a null element; the program wraps `a` itself.
   */
  function NewProgram(h: Heap, a: Option<nat>): (r: Result<Program>)
    requires a.Some? ==> a.value < |h.lists|
    ensures a.None? ==> r == Failure(NullPointer)
    ensures a.Some? && |h.lists[a.value]| == 0 ==> r == Failure(IllegalArgument)
    ensures a.Some? && |h.lists[a.value]| > 0 && None in h.lists[a.value] ==> r == Failure(NullPointer)
    ensures r.Success? <==> a.Some? && |h.lists[a.value]| > 0 && None !in h.lists[a.value]
    ensures r.Success? ==> Allocated(h, r.value) && Consistent(h, r.value)
    ensures r.Success? ==> Parameters(h, r.value) == Some(h.lists[a.value]) && r.value.parameters == a
  {
    if a.None? then Failure(NullPointer)
    else if |h.lists[a.value]| == 0 then Failure(IllegalArgument)
    else if None in h.lists[a.value] then Failure(NullPointer)
    else Success(Program(|h.lists[a.value]|, a))
  }

  /** `array[k] = x`: a store into an array; arrays keep their length. */
  function Store(h: Heap, a: nat, k: nat, x: Option<Parameter>): (h': Heap)
    requires a < |h.lists| && k < |h.lists[a]|
    ensures |h'.lists| == |h.lists|
    ensures forall b :: 0 <= b < |h.lists| ==> |h'.lists[b]| == |h.lists[b]|
    ensures h'.lists[a][k] == x
  {
    Heap(h.lists[a := h.lists[a][k := x]])
  }

  /**
   * A store into the caller's array after construction shows through `getParameters()`, while
   * `number` stays as it was: storing null there leaves a program holding a null element,
   * which the constructor had refused.
   */
  lemma CallerStoreShows(h: Heap, a: nat, k: nat, x: Option<Parameter>)
    requires a < |h.lists| && k < |h.lists[a]| && NewProgram(h, Some(a)).Success?
    ensures var p := NewProgram(h, Some(a)).value;
      && Allocated(Store(h, a, k, x), p)
      && Parameters(Store(h, a, k, x), p) == Some(h.lists[a][k := x])
      && p.number == |Parameters(Store(h, a, k, x), p).value|
      && (x.None? ==> !Consistent(Store(h, a, k, x), p))
  {
    var h' := Store(h, a, k, x);
    if x.None? {
      assert h'.lists[a][k] == None;
    }
  }

  // ---------------------------------------------------------------------------
  // Builder
  // ---------------------------------------------------------------------------

  /** `AutoBracketProgram.Builder`: its `ArrayList`, which only ever holds non-null parameters. */
  datatype Builder = Builder(parameters: seq<Parameter>)

  /** `add(parameter)`: a null parameter raises `NullPointerException`; otherwise it is appended. */
  function Add(b: Builder, parameter: Option<Parameter>): (r: Result<Builder>)
    ensures r.Success? <==> parameter.Some?
    ensures r.Failure? ==> r.error == NullPointer
    ensures r.Success? ==> r.value.parameters == b.parameters + [parameter.value]
  {
    if parameter.None? then Failure(NullPointer) else Success(Builder(b.parameters + [parameter.value]))
  }

  /** `add(iso, shutterSpeed, colorTemperature)`: appends `new Parameter(...)`, failing as it does. */
  function AddFields(b: Builder, iso: Option<IsoSpeeds.IsoSpeed>, shutterSpeed: Option<ShutterSpeeds.ShutterSpeed>,
                     colorTemperature: int): (r: Result<Builder>)
    ensures r.Success? <==> iso.Some? && shutterSpeed.Some?
    ensures r.Failure? ==> r.error == NullPointer
    ensures r.Success? ==> r.value.parameters == b.parameters + [Parameter(iso, shutterSpeed, colorTemperature)]
  {
    var p :- NewParameter(iso, shutterSpeed, colorTemperature);
    Success(Builder(b.parameters + [p]))
  }

  /** The builder's list as a Java array: every element present. */
  function Wrap(ps: seq<Parameter>): (r: seq<Option<Parameter>>)
    ensures |r| == |ps| && None !in r
    ensures forall i :: 0 <= i < |ps| ==> r[i] == Some(ps[i])
  {
    if |ps| == 0 then [] else Wrap(ps[..|ps| - 1]) + [Some(ps[|ps| - 1])]
  }

  /** `build()`: `toArray` copies the list into a fresh array, which the constructor then wraps. */
  function Build(h: Heap, b: Builder): (r: Result<(Heap, Program)>)
    ensures r.Success? <==> |b.parameters| > 0
    ensures r.Failure? ==> r.error == IllegalArgument
    ensures r.Success? ==> r.value.0.lists == h.lists + [Wrap(b.parameters)]
    ensures r.Success? ==> r.value.1.parameters == Some(|h.lists|)
  {
    var h' := Heap(h.lists + [Wrap(b.parameters)]);
    var p :- NewProgram(h', Some(|h.lists|));
    Success((h', p))
  }

  /**
   * A built program holds the builder's parameters in insertion order, counted by `number`, and
   * no later store into any array that existed before `build()` changes it.
   */
  lemma BuildSpec(h: Heap, b: Builder, a: nat, k: nat, x: Option<Parameter>)
    requires |b.parameters| > 0 && a < |h.lists| && k < |h.lists[a]|
    ensures var (h1, p) := Build(h, b).value;
      && Allocated(h1, p) && Consistent(h1, p)
      && p.number == |b.parameters|
      && |Parameters(h1, p).value| == |b.parameters|
      && (forall i :: 0 <= i < |b.parameters| ==> Parameters(h1, p).value[i] == Some(b.parameters[i]))
      && Parameters(Store(h1, a, k, x), p) == Parameters(h1, p)
  {
    var (h1, p) := Build(h, b).value;
    assert h1.lists[|h.lists|] == Wrap(b.parameters);
    assert Store(h1, a, k, x).lists[|h.lists|] == h1.lists[|h.lists|];
  }

  /** An empty builder cannot build. */
  lemma EmptyBuilderFails(h: Heap)
    ensures Build(h, Builder([])) == Failure(IllegalArgument)
  {
  }

  // ---------------------------------------------------------------------------
  // equals
  // ---------------------------------------------------------------------------

  /**
   * `equals` for two distinct program objects: `number` first, and only when the numbers agree
   * `parameters.equals(...)`, which raises `NullPointerException` on a null list of this program
   * and compares element by element otherwise (`Parameter.equals` compares all three fields).
   */
  function Equals(h: Heap, p: Program, q: Program): (r: Result<bool>)
    requires Allocated(h, p) && Allocated(h, q)
    ensures r.Failure? <==> p.number == q.number && p.parameters.None?
    ensures r.Failure? ==> r.error == NullPointer
    ensures r == Success(true) <==> p.number == q.number && p.parameters.Some? && Parameters(h, p) == Parameters(h, q)
    ensures r == Success(false) <==> p.number != q.number || (p.parameters.Some? && Parameters(h, p) != Parameters(h, q))
  {
    if p.number != q.number then Success(false)
    else if p.parameters.None? then Failure(NullPointer)
    else Success(Parameters(h, p) == Parameters(h, q))
  }

  /**
   * Between programs the constructor accepted, `equals` never throws and holds exactly when the
   * parameter lists are equal: the comparison of `number` decides nothing of its own.
   */
  lemma EqualsConsistent(h: Heap, p: Program, q: Program)
    requires Allocated(h, p) && Allocated(h, q) && Consistent(h, p) && Consistent(h, q)
    ensures Equals(h, p, q) == Success(Parameters(h, p) == Parameters(h, q))
    ensures Equals(h, p, q) == Equals(h, q, p)
  {
  }

  // ---------------------------------------------------------------------------
  // Gson wire form
  // ---------------------------------------------------------------------------

  /** A parameter as Gson writes it reflectively: null fields are omitted. */
  function ParameterJson(x: Parameter): (j: Json)
    ensures j.JObj? && ColorTemperatureKey in j.fields
    ensures IsoKey in j.fields <==> x.iso.Some?
    ensures ShutterSpeedKey in j.fields <==> x.shutterSpeed.Some?
  {
    JObj((if x.iso.Some? then map[IsoKey := IsoSpeeds.Serialize(x.iso.value)] else map[])
      + (if x.shutterSpeed.Some? then map[ShutterSpeedKey := ShutterSpeeds.Serialize(x.shutterSpeed.value)] else map[])
      + map[ColorTemperatureKey := IntJson(x.colorTemperature)])
  }

  /** A list element: null is written as JSON `null`. */
  function ElementJson(x: Option<Parameter>): Json {
    if x.None? then JNull else ParameterJson(x.value)
  }

  function ElementsJson(xs: seq<Option<Parameter>>): (js: seq<Json>)
    ensures |js| == |xs|
    ensures forall i :: 0 <= i < |xs| ==> js[i] == ElementJson(xs[i])
  {
    if |xs| == 0 then [] else [ElementJson(xs[0])] + ElementsJson(xs[1..])
  }

  /** `gson.toJson(program)`: `number` under `_bracketNumber`, the list (unless null) under `_bracketParameters`. */
  function Serialize(h: Heap, p: Program): (j: Json)
    requires Allocated(h, p)
    ensures j.JObj? && NumberKey in j.fields && j.fields[NumberKey] == IntJson(p.number)
    ensures ParametersKey in j.fields <==> p.parameters.Some?
  {
    JObj(map[NumberKey := IntJson(p.number)]
      + (if p.parameters.None? then map[] else map[ParametersKey := JArr(ElementsJson(Parameters(h, p).value))]))
  }

  /**
   * Gson reading an `int` field from a tree: a missing member or `null` leaves the default 0; a
   * number goes through `JsonPrimitive.getAsInt`, which truncates a fraction and keeps the low 32
   * bits; a string must be an `int` in decimal; anything else is a syntax error.
   */
  function IntField(fields: map<string, Json>, key: string): (r: Result<int>)
    ensures key !in fields || fields[key].JNull? ==> r == Success(0)
    ensures key in fields && fields[key].JNum? ==> r == Success(IntValue(fields[key].num))
    ensures r.Success? ==> IsInt32(r.value)
    ensures r.Failure? <==> key in fields && (fields[key].JBool? || fields[key].JArr? || fields[key].JObj?
                                               || (fields[key].JStr? && ParseInt(fields[key].str).Failure?))
    ensures r.Failure? ==> r.error == Serialization
  {
    if key !in fields then Success(0)
    else match fields[key]
      case JNull => Success(0)
      case JNum(d) => Success(IntValue(d))
      case JStr(s) => (match ParseInt(s) case Success(n) => Success(n) case Failure(_) => Failure(Serialization))
      case _ => Failure(Serialization)
  }

  /** Every `int` reads back from the number Gson writes for it. */
  lemma IntFieldRoundTrip(fields: map<string, Json>, key: string, n: int)
    requires IsInt32(n) && key in fields && fields[key] == IntJson(n)
    ensures IntField(fields, key) == Success(n)
  {
  }

  /** An enum-typed field: a missing member or `null` gives null; anything else goes through the enum's adapter. */
  function EnumField<E>(fields: map<string, Json>, key: string, adapter: Json -> Result<Option<E>>): (r: Result<Option<E>>)
    ensures key !in fields || fields[key].JNull? ==> r == Success(None)
    ensures key in fields && !fields[key].JNull? ==> r == adapter(fields[key])
  {
    if key !in fields || fields[key].JNull? then Success(None) else adapter(fields[key])
  }

  /**
   * Gson reading a `Parameter` reflectively; unknown members are ignored and the constructor is not
   * run. The reflective adapter catches an `IllegalStateException` from a field's adapter and raises
   * a syntax error instead; other exceptions pass through.
   */
  function DecodeParameter(j: Json): (r: Result<Option<Parameter>>)
    ensures j.JNull? ==> r == Success(None)
    ensures !j.JNull? && !j.JObj? ==> r == Failure(Serialization)
    ensures r.Success? && r.value.Some? ==> IsInt32(r.value.value.colorTemperature)
    ensures j.JObj? && EnumField(j.fields, IsoKey, IsoSpeeds.Deserialize).Failure?
            ==> r == Failure(FromJsonError(EnumField(j.fields, IsoKey, IsoSpeeds.Deserialize).error))
    ensures r.Failure? ==> r.error != IllegalState
  {
    match j
    case JNull => Success(None)
    case JObj(fields) =>
      var iso :- GsonRethrow(EnumField(fields, IsoKey, IsoSpeeds.Deserialize));
      var shutterSpeed :- GsonRethrow(EnumField(fields, ShutterSpeedKey, ShutterSpeeds.Deserialize));
      var colorTemperature :- IntField(fields, ColorTemperatureKey);
      Success(Some(Parameter(iso, shutterSpeed, colorTemperature)))
    case _ => Failure(Serialization)
  }

  function DecodeElements(js: seq<Json>): (r: Result<seq<Option<Parameter>>>)
    ensures r.Success? ==> |r.value| == |js|
    ensures r.Failure? ==> r.error != IllegalState
  {
    if |js| == 0 then Success([])
    else
      var x :- DecodeParameter(js[0]);
      var rest :- DecodeElements(js[1..]);
      Success([x] + rest)
  }

  /**
   * `gson.fromJson(json, AutoBracketProgram.class)`: JSON `null` gives a null program; an object
   * gives a program whose `number` is read from `_bracketNumber` as written, whatever the list
   * holds, and whose list, when present, is allocated fresh.
   */
  function Decode(h: Heap, j: Json): (r: Result<(Heap, Option<Program>)>)
    ensures j.JNull? ==> r == Success((h, None))
    ensures !j.JNull? && !j.JObj? ==> r == Failure(Serialization)
    ensures r.Success? ==> |h.lists| <= |r.value.0.lists| <= |h.lists| + 1 && r.value.0.lists[..|h.lists|] == h.lists
    ensures r.Success? && r.value.1.Some? ==> Allocated(r.value.0, r.value.1.value)
    ensures r.Failure? ==> r.error != IllegalState
  {
    match j
    case JNull => Success((h, None))
    case JObj(fields) =>
      var number :- IntField(fields, NumberKey);
      if ParametersKey !in fields || fields[ParametersKey].JNull? then
        Success((h, Some(Program(number, None))))
      else if fields[ParametersKey].JArr? then
        var xs :- DecodeElements(fields[ParametersKey].items);
        Success((Heap(h.lists + [xs]), Some(Program(number, Some(|h.lists|)))))
      else Failure(Serialization)
    case _ => Failure(Serialization)
  }

  // ---------------------------------------------------------------------------
  // Round trip
  // ---------------------------------------------------------------------------

  /** A parameter the constructor could have made from enum constants. */
  predicate Listed(x: Parameter) {
    && x.iso.Some? && x.iso.value in IsoSpeeds.Values
    && x.shutterSpeed.Some? && x.shutterSpeed.value in ShutterSpeeds.Values
    && IsInt32(x.colorTemperature)
  }

  /** The members written for a parameter with both enum fields set. */
  lemma ParameterMembers(x: Parameter)
    requires x.iso.Some? && x.shutterSpeed.Some?
    ensures IsoKey in ParameterJson(x).fields && ParameterJson(x).fields[IsoKey] == IsoSpeeds.Serialize(x.iso.value)
    ensures ShutterSpeedKey in ParameterJson(x).fields
      && ParameterJson(x).fields[ShutterSpeedKey] == ShutterSpeeds.Serialize(x.shutterSpeed.value)
    ensures ParameterJson(x).fields[ColorTemperatureKey] == IntJson(x.colorTemperature)
  {
  }

  lemma IsoRead(x: Parameter)
    requires Listed(x)
    ensures EnumField(ParameterJson(x).fields, IsoKey, IsoSpeeds.Deserialize) == Success(x.iso)
  {
    ParameterMembers(x);
    IsoSpeeds.RoundTripListed(x.iso.value);
  }

  lemma ShutterSpeedRead(x: Parameter)
    requires Listed(x)
    ensures EnumField(ParameterJson(x).fields, ShutterSpeedKey, ShutterSpeeds.Deserialize) == Success(x.shutterSpeed)
  {
    ParameterMembers(x);
    ShutterSpeeds.RoundTripListed(x.shutterSpeed.value);
  }

  lemma ColorTemperatureRead(x: Parameter)
    requires Listed(x)
    ensures IntField(ParameterJson(x).fields, ColorTemperatureKey) == Success(x.colorTemperature)
  {
    ParameterMembers(x);
    IntFieldRoundTrip(ParameterJson(x).fields, ColorTemperatureKey, x.colorTemperature);
  }

  /** An object whose three members read as a parameter's fields decodes to that parameter. */
  lemma DecodeFromMembers(j: Json, x: Parameter)
    requires j.JObj?
    requires EnumField(j.fields, IsoKey, IsoSpeeds.Deserialize) == Success(x.iso)
    requires EnumField(j.fields, ShutterSpeedKey, ShutterSpeeds.Deserialize) == Success(x.shutterSpeed)
    requires IntField(j.fields, ColorTemperatureKey) == Success(x.colorTemperature)
    ensures DecodeParameter(j) == Success(Some(x))
  {
  }

  lemma ParameterRoundTrip(x: Parameter)
    requires Listed(x)
    ensures DecodeParameter(ParameterJson(x)) == Success(Some(x))
  {
    hide *;
    IsoRead(x);
    ShutterSpeedRead(x);
    ColorTemperatureRead(x);
    DecodeFromMembers(ParameterJson(x), x);
  }

  lemma {:induction false} ElementsRoundTrip(xs: seq<Option<Parameter>>)
    requires forall i :: 0 <= i < |xs| ==> xs[i].Some? && Listed(xs[i].value)
    ensures DecodeElements(ElementsJson(xs)) == Success(xs)
  {
    if |xs| > 0 {
      ParameterRoundTrip(xs[0].value);
      ElementsRoundTrip(xs[1..]);
      assert ElementsJson(xs)[1..] == ElementsJson(xs[1..]);
      assert [xs[0]] + xs[1..] == xs;
    }
  }

  /** An object whose number and list members read back decodes to a program over a fresh list. */
  lemma DecodeList(h: Heap, fields: map<string, Json>, number: int, xs: seq<Option<Parameter>>)
    requires IntField(fields, NumberKey) == Success(number)
    requires ParametersKey in fields && fields[ParametersKey].JArr?
    requires DecodeElements(fields[ParametersKey].items) == Success(xs)
    ensures Decode(h, JObj(fields)) == Success((Heap(h.lists + [xs]), Some(Program(number, Some(|h.lists|)))))
  {
  }

  /**
   * Serialising a program the constructor accepted and reading it back gives a program equal to
   * it, with a fresh list of the same parameters.
   */
  lemma RoundTrip(h: Heap, p: Program)
    requires Allocated(h, p) && Consistent(h, p)
    requires IsInt32(p.number)
    requires forall i :: 0 <= i < |Parameters(h, p).value| ==> Listed(Parameters(h, p).value[i].value)
    ensures Decode(h, Serialize(h, p)).Success?
    ensures var (h1, q) := Decode(h, Serialize(h, p)).value;
      && q.Some? && Allocated(h1, p) && Allocated(h1, q.value)
      && q.value.number == p.number
      && Parameters(h1, q.value) == Parameters(h1, p)
      && Equals(h1, p, q.value) == Success(true)
  {
    var ps := Parameters(h, p).value;
    forall i | 0 <= i < |ps|
      ensures ps[i].Some? && Listed(ps[i].value)
    {
      assert ps[i] in ps;
    }
    ElementsRoundTrip(ps);
    var fields := Serialize(h, p).fields;
    IntFieldRoundTrip(fields, NumberKey, p.number);
    assert fields[ParametersKey] == JArr(ElementsJson(ps));
    DecodeList(h, fields, p.number, ps);
    hide Decode, IntField, DecodeElements;
    var (h1, q) := Decode(h, Serialize(h, p)).value;
    assert h1.lists[p.parameters.value] == h.lists[p.parameters.value];
  }

  /**
   * Gson skips the constructor's checks: `{"_bracketNumber": 5, "_bracketParameters": []}` reads
   * as a program with `number` 5 and no parameters.
   */
  lemma DecodeSkipsChecks(h: Heap)
    ensures var j := JObj(map[NumberKey := IntJson(5), ParametersKey := JArr([])]);
      && Decode(h, j).Success?
      && var (h1, q) := Decode(h, j).value;
      && q.Some? && q.value.number == 5
      && Parameters(h1, q.value) == Some([])
      && !Consistent(h1, q.value)
  {
    var fields := map[NumberKey := IntJson(5), ParametersKey := JArr([])];
    IntFieldRoundTrip(fields, NumberKey, 5);
    DecodeList(h, fields, 5, []);
  }

  /**
   * `{"iso": [1, 2]}`: the `Iso` adapter's `getAsInt` raises `IllegalStateException` on a
   * two-element array, and the reflective adapter reports it as a syntax error.
   */
  lemma IsoListRejected()
    ensures DecodeParameter(JObj(map[IsoKey := JArr([IntJson(1), IntJson(2)])])) == Failure(Serialization)
  {
    var fields := map[IsoKey := JArr([IntJson(1), IntJson(2)])];
    assert GsonAsInt(fields[IsoKey]) == Failure(IllegalState);
    assert EnumField(fields, IsoKey, IsoSpeeds.Deserialize).Failure?;
  }

  // ---------------------------------------------------------------------------
  // The fixture of the unit test
  // ---------------------------------------------------------------------------

  const Iso100 := IsoSpeeds.IsoSpeed("_100", 100)
  const Iso200 := IsoSpeeds.IsoSpeed("_200", 200)
  const Iso400 := IsoSpeeds.IsoSpeed("_400", 400)

  /** The three shots of the test program: ISO 100, 200 and 400 at 1/1000 s, 1/10 s and 1 s. */
  const TestShots: seq<Option<Parameter>> := [
    Some(Parameter(Some(Iso100), Some(ShutterSpeeds.S1_1000), 3000)),
    Some(Parameter(Some(Iso200), Some(ShutterSpeeds.S1_10), 4000)),
    Some(Parameter(Some(Iso400), Some(ShutterSpeeds.S1), 5100))]

  function ShotJson(iso: int, time: Decimal, colorTemperature: int): Json {
    JObj(map[IsoKey := IntJson(iso), ShutterSpeedKey := JNum(time), ColorTemperatureKey := IntJson(colorTemperature)])
  }

  /** The test's JSON text, as a value. */
  const TestJson := JObj(map[
    NumberKey := IntJson(3),
    ParametersKey := JArr([
      ShotJson(100, Decimal(1, 3), 3000),
      ShotJson(200, Decimal(1, 1), 4000),
      ShotJson(400, Decimal(1, 0), 5100)])])

  lemma TestShotsListed()
    ensures forall i :: 0 <= i < |TestShots| ==> TestShots[i].Some? && Listed(TestShots[i].value)
  {
    IsoSpeeds.CodesIncreasing();
    assert IsoSpeeds.Values[3] == Iso100 && IsoSpeeds.Values[6] == Iso200 && IsoSpeeds.Values[9] == Iso400;
    ShutterSpeeds.Positions();
  }

  /** The test's shots, written as Gson writes list elements. */
  lemma TestElements()
    ensures ElementsJson(TestShots) == TestJson.fields[ParametersKey].items
  {
    TestElement0();
    TestElement1();
    TestElement2();
  }

  lemma TestElement0()
    ensures ElementJson(TestShots[0]) == ShotJson(100, Decimal(1, 3), 3000)
  {
  }

  lemma TestElement1()
    ensures ElementJson(TestShots[1]) == ShotJson(200, Decimal(1, 1), 4000)
  {
  }

  lemma TestElement2()
    ensures ElementJson(TestShots[2]) == ShotJson(400, Decimal(1, 0), 5100)
  {
  }

  /** The test program, built over an array of the three shots, serialises to the test's JSON. */
  lemma TestSerialize(h: Heap)
    ensures var h1 := Heap(h.lists + [TestShots]);
      && NewProgram(h1, Some(|h.lists|)).Success?
      && Serialize(h1, NewProgram(h1, Some(|h.lists|)).value) == TestJson
  {
    var h1 := Heap(h.lists + [TestShots]);
    assert h1.lists[|h.lists|] == TestShots;
    TestElements();
  }

  /** The test's JSON reads back as a program with `number` 3 and the same three shots in order. */
  lemma TestDecode(h: Heap)
    ensures Decode(h, TestJson).Success?
    ensures var (h2, q) := Decode(h, TestJson).value;
      && q.Some? && Allocated(h2, q.value) && q.value.number == 3
      && Parameters(h2, q.value) == Some(TestShots)
  {
    TestShotsListed();
    TestElements();
    ElementsRoundTrip(TestShots);
    IntFieldRoundTrip(TestJson.fields, NumberKey, 3);
    DecodeObject(h, TestJson.fields, 3, TestShots);
  }

  /** Reading an object whose count reads as `n` and whose list reads as `xs`. */
  lemma DecodeObject(h: Heap, fields: map<string, Json>, n: int, xs: seq<Option<Parameter>>)
    requires IntField(fields, NumberKey) == Success(n)
    requires ParametersKey in fields && fields[ParametersKey].JArr?
    requires DecodeElements(fields[ParametersKey].items) == Success(xs)
    ensures Decode(h, JObj(fields)) == Success((Heap(h.lists + [xs]), Some(Program(n, Some(|h.lists|)))))
  {
  }
}
