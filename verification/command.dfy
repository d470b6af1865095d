/**
 * Decoding the reply of `Commands/Execute` and `Commands/Status` into a `CommandResponse`:
 * a command name, a state, and optional `id`, `results`, `error` and `progress` members.
 * Decoding records an `error` member and never raises for one; the client decides what to do.
 */
module Commands {
  import opened Wrappers
  import opened Numbers
  import opened Json

  /** `CommandState`: the wire names are `done`, `inProgress` and `error`. */
  datatype CommandState = Done | InProgress | Error

  function StateName(s: CommandState): string {
    match s
    case Done => "done"
    case InProgress => "inProgress"
    case Error => "error"
  }

  /** The state a wire name stands for; any other string stands for none. */
  function StateOfName(n: string): (r: Option<CommandState>)
    ensures r.Some? ==> StateName(r.value) == n
  {
    if n == "done" then Some(Done)
    else if n == "inProgress" then Some(InProgress)
    else if n == "error" then Some(Error)
    else None
  }

  /** The wire names and the states are in one-to-one correspondence. */
  lemma StateNamesBijective(s: CommandState, n: string)
    ensures StateOfName(StateName(s)) == Some(s)
    ensures StateOfName(n).Some? <==> n in {"done", "inProgress", "error"}
  {
  }

  /** The `progress` member: how far the command has got, when the camera says. */
  datatype Progress = Progress(completion: Option<Decimal>)

  /**
   * A decoded reply. `resultCodec` is the decoder the reply was read with (Java's result `Class`,
   * Kotlin's result serializer); it is kept so a status poll can decode the next reply the same way.
   */
  datatype Response<!R> = Response(
    name: string,
    state: Option<CommandState>,
    id: Option<string>,
    result: Option<R>,
    error: Option<CameraError>,
    progress: Option<Progress>,
    resultCodec: Codec<R>)

  /** Two responses agree on every member read from the wire. */
  ghost predicate SameReply<R>(a: Response<R>, b: Response<R>) {
    a.name == b.name && a.state == b.state && a.id == b.id && a.result == b.result
    && a.error == b.error && a.progress == b.progress
  }

  // ---------------------------------------------------------------------------
  // Members
  // ---------------------------------------------------------------------------

  /**
   * An optional member decoded with `dec`. Java (`json.has(key) ? GSON.fromJson(...) : null`)
   * reads an absent member and an explicit `null` alike as absent, since Gson turns JSON `null`
   * into Java `null` without consulting the adapter, and reports the adapter's
   * `IllegalStateException` as a syntax error. Kotlin (`json[key]?.let { decode(it) }`) hands an
   * explicit `null` to the decoder.
   */
  function Member<T>(flavor: Flavor, fields: map<string, Json>, key: string, dec: Json -> Result<T>): (r: Result<Option<T>>)
    ensures key !in fields ==> r == Success(None)
  {
    if key !in fields then Success(None)
    else if flavor == Java && fields[key].JNull? then Success(None)
    else
      var v :- if flavor == Java then GsonRethrow(dec(fields[key])) else dec(fields[key]);
      Success(Some(v))
  }

  /** A member is set exactly when its key is present with a value the flavour does not read as absent. */
  lemma MemberSpec<T>(flavor: Flavor, fields: map<string, Json>, key: string, dec: Json -> Result<T>)
    ensures var r := Member(flavor, fields, key, dec);
      && (r.Success? && r.value.Some? <==>
            key in fields && !(flavor == Java && fields[key].JNull?) && dec(fields[key]).Success?)
      && (r.Success? && r.value.None? <==> key !in fields || (flavor == Java && fields[key].JNull?))
      && (r.Success? && r.value.Some? ==> dec(fields[key]) == Success(r.value.value))
      && (r.Failure? ==> key in fields && dec(fields[key]).Failure?)
      && (r.Failure? ==> r.error == if flavor == Java then FromJsonError(dec(fields[key]).error) else dec(fields[key]).error)
  {
  }

  /**
   * The `state` member. Gson's enum adapter reads a string or a number as a name and gives `null`
   * for an unknown name or JSON `null`; kotlinx accepts only a known name.
   */
  function DecodeState(flavor: Flavor, j: Json): (r: Result<Option<CommandState>>)
    ensures flavor == Kotlin ==> (r.Success? <==> j.JStr? && StateOfName(j.str).Some?)
    ensures flavor == Kotlin && r.Success? ==> r.value.Some?
    ensures r.Failure? ==> r.error == Serialization
  {
    match flavor
    case Java =>
      (match j
       case JNull => Success(None)
       case JStr(s) => Success(StateOfName(s))
       case JNum(d) => Success(StateOfName(NumberText(d)))
       case _ => Failure(Serialization))
    case Kotlin =>
      if j.JStr? && StateOfName(j.str).Some? then Success(StateOfName(j.str)) else Failure(Serialization)
  }

  /** A string member of an error or progress object, as Gson's string adapter reads it. */
  function StringMember(fields: map<string, Json>, key: string): (r: Result<Option<string>>)
    ensures key !in fields ==> r == Success(None)
    ensures key in fields && fields[key].JStr? ==> r == Success(Some(fields[key].str))
  {
    if key !in fields then Success(None)
    else
      match fields[key]
      case JNull => Success(None)
      case JStr(s) => Success(Some(s))
      case JNum(d) => Success(Some(NumberText(d)))
      case JBool(b) => Success(Some(BoolText(b)))
      case _ => Failure(Serialization)
  }

  /** The `error` member as Gson reads it: an object whose `code` and `message` members may each be missing. */
  function DecodeError(j: Json): (r: Result<CameraError>)
    ensures !j.JObj? ==> r == Failure(Serialization)
  {
    if !j.JObj? then Failure(Serialization)
    else
      var code :- StringMember(j.fields, "code");
      var message :- StringMember(j.fields, "message");
      Success(CameraError(code, message))
  }

  /**
   * A string member of an error object as kotlinx reads it without `isLenient`: missing or `null`
   * gives null, and only a quoted string is a string.
   */
  function KotlinStringMember(fields: map<string, Json>, key: string): (r: Result<Option<string>>)
    ensures key !in fields || fields[key].JNull? ==> r == Success(None)
    ensures r.Success? && r.value.Some? <==> key in fields && fields[key].JStr?
    ensures r.Success? && r.value.Some? ==> r.value.value == fields[key].str
    ensures r.Failure? <==> key in fields && !fields[key].JNull? && !fields[key].JStr?
    ensures r.Failure? ==> r.error == Serialization
  {
    if key !in fields then Success(None)
    else
      match fields[key]
      case JNull => Success(None)
      case JStr(s) => Success(Some(s))
      case _ => Failure(Serialization)
  }

  /** The `error` member as kotlinx reads it, with the same two optional members. */
  function KotlinDecodeError(j: Json): (r: Result<CameraError>)
    ensures !j.JObj? ==> r == Failure(Serialization)
  {
    if !j.JObj? then Failure(Serialization)
    else
      var code :- KotlinStringMember(j.fields, "code");
      var message :- KotlinStringMember(j.fields, "message");
      Success(CameraError(code, message))
  }

  /** The error decoder of each flavour. */
  function ErrorDecoder(flavor: Flavor): Json -> Result<CameraError> {
    if flavor == Java then DecodeError else KotlinDecodeError
  }

  /**
   * Whatever kotlinx reads, Gson reads alike; they differ only on a number or boolean member,
   * which Gson takes as its text and kotlinx refuses.
   */
  lemma ErrorDecodersAgree(j: Json)
    ensures KotlinDecodeError(j).Success? ==> DecodeError(j) == KotlinDecodeError(j)
    ensures j.JObj? && (forall k | k in {"code", "message"} && k in j.fields :: j.fields[k].JNull? || j.fields[k].JStr?)
            ==> DecodeError(j) == KotlinDecodeError(j)
    ensures j.JObj? && "code" in j.fields && (j.fields["code"].JNum? || j.fields["code"].JBool?)
            && ("message" !in j.fields || j.fields["message"].JStr?)
            ==> DecodeError(j).Success? && KotlinDecodeError(j) == Failure(Serialization)
  {
  }

  /** The wire form of an error object: a member for each part that is present. */
  function EncodeError(e: CameraError): (j: Json) {
    JObj((if e.code.Some? then map["code" := JStr(e.code.value)] else map[])
       + (if e.message.Some? then map["message" := JStr(e.message.value)] else map[]))
  }

  lemma DecodeEncodeError(e: CameraError)
    ensures DecodeError(EncodeError(e)) == Success(e)
    ensures KotlinDecodeError(EncodeError(e)) == Success(e)
  {
    var f := EncodeError(e).fields;
    assert "code" in f <==> e.code.Some?;
    assert "message" in f <==> e.message.Some?;
  }

  /**
   * The `completion` member of a progress object, read as a `BigDecimal`: missing or `null` gives
   * null, a number keeps its decimal, and a string goes through `new BigDecimal(String)`, whose
   * `NumberFormatException` Gson's adapter reports as a syntax error. A boolean, an array or an
   * object is not a number and is a syntax error too.
   */
  function DecodeProgress(j: Json): (r: Result<Progress>)
    ensures !j.JObj? ==> r == Failure(Serialization)
    ensures r.Failure? ==> r.error == Serialization
    ensures j.JObj? && ("completion" !in j.fields || j.fields["completion"].JNull?) ==> r == Success(Progress(None))
    ensures j.JObj? && "completion" in j.fields && j.fields["completion"].JNum?
            ==> r == Success(Progress(Some(j.fields["completion"].num)))
    ensures j.JObj? && "completion" in j.fields && j.fields["completion"].JStr?
            ==> (r.Success? <==> ParseDecimal(j.fields["completion"].str).Success?)
    ensures j.JObj? && "completion" in j.fields && j.fields["completion"].JStr? && r.Success?
            ==> r.value.completion == Some(ParseDecimal(j.fields["completion"].str).value)
    ensures j.JObj? && "completion" in j.fields
            && (j.fields["completion"].JBool? || j.fields["completion"].JArr? || j.fields["completion"].JObj?)
            ==> r == Failure(Serialization)
  {
    if !j.JObj? then Failure(Serialization)
    else if "completion" !in j.fields then Success(Progress(None))
    else
      match j.fields["completion"]
      case JNull => Success(Progress(None))
      case JNum(d) => Success(Progress(Some(d)))
      case JStr(s) =>
        (match ParseDecimal(s)
         case Success(d) => Success(Progress(Some(d)))
         case Failure(_) => Failure(Serialization))
      case _ => Failure(Serialization)
  }

  function EncodeProgress(p: Progress): (j: Json) {
    JObj(if p.completion.Some? then map["completion" := JNum(p.completion.value)] else map[])
  }

  lemma DecodeEncodeProgress(p: Progress)
    ensures DecodeProgress(EncodeProgress(p)) == Success(p)
  {
  }

  /**
   * A progress whose `completion` is a string that is not a number fails the whole reply with a
   * syntax error in both flavours, never with `NumberFormatException`.
   */
  lemma NonNumericCompletion<R>(flavor: Flavor, codec: Codec<R>)
    ensures Decode(flavor, codec, map["name" := JStr("x"), "state" := JStr("inProgress"),
                                     "progress" := JObj(map["completion" := JStr("abc")])])
         == Failure(Serialization)
  {
    hide Decode, DecodeState, DecodeProgress, Member, ParseDecimal, GsonAsString, KotlinContent;
    var fields := map["name" := JStr("x"), "state" := JStr("inProgress"),
                      "progress" := JObj(map["completion" := JStr("abc")])];
    assert FromJsonError(Serialization) == Serialization;
    NonNumericProgress();
    InProgressState(flavor);
    MemberSpec(flavor, fields, "progress", DecodeProgress);
    assert fields["progress"] == JObj(map["completion" := JStr("abc")]);
    assert fields["state"] == JStr("inProgress");
    DecodeAtProgress(flavor, codec, fields);
  }

  lemma NonNumericProgress()
    ensures DecodeProgress(JObj(map["completion" := JStr("abc")])) == Failure(Serialization)
  {
    assert forall i :: 0 <= i < |"abc"| ==> !IsExponentMark("abc"[i]);
    NotDecimal("abc");
  }

  lemma InProgressState(flavor: Flavor)
    ensures DecodeState(flavor, JStr("inProgress")) == Success(Some(InProgress))
  {
    assert StateOfName("inProgress") == Some(InProgress);
  }

  /**
   * With a readable name and state and no `id`, `results` or `error`, a reply is decoded or
   * refused as its `progress` member is.
   */
  lemma DecodeAtProgress<R>(flavor: Flavor, codec: Codec<R>, fields: map<string, Json>)
    requires "name" in fields && "state" in fields && "id" !in fields && "results" !in fields && "error" !in fields
    requires (if flavor == Java then GsonAsString(fields["name"]) else KotlinContent(fields["name"])).Success?
    requires DecodeState(flavor, fields["state"]).Success?
    ensures Decode(flavor, codec, fields).Failure? <==> Member(flavor, fields, "progress", DecodeProgress).Failure?
    ensures Decode(flavor, codec, fields).Failure?
            ==> Decode(flavor, codec, fields).error == Member(flavor, fields, "progress", DecodeProgress).error
  {
    hide Member, DecodeState, GsonAsString, KotlinContent;
  }


  // ---------------------------------------------------------------------------
  // The reply record
  // ---------------------------------------------------------------------------

  /**
   * `CommandResponse.valueOf` (Java) and `CommandResponse.decode` (Kotlin). A missing `name`
   * raises `NullPointerException` in both; a missing `state` raises it only in Kotlin (`!!`),
   * while Java's Gson reads it as `null`. The optional members are read independently of the
   * state and of each other.
   */
  function Decode<R>(flavor: Flavor, codec: Codec<R>, fields: map<string, Json>): (r: Result<Response<R>>)
    ensures "name" !in fields ==> r == Failure(NullPointer)
    ensures r.Success? ==> r.value.id.Some? ==> "id" in fields
    ensures r.Success? && flavor == Kotlin ==> r.value.state.Some?
  {
    if "name" !in fields then Failure(NullPointer)
    else
      var name :- if flavor == Java then GsonAsString(fields["name"]) else KotlinContent(fields["name"]);
      var state :-
        if "state" in fields then DecodeState(flavor, fields["state"])
        else if flavor == Java then Success(None)
        else Failure(NullPointer);
      var id :-
        if "id" !in fields then Success(None)
        else if flavor == Java then (var i :- GsonAsString(fields["id"]); Success(Some(i)))
        else (var i :- KotlinContent(fields["id"]); Success(Some(i)));
      var result :- Member(flavor, fields, "results", codec.decode);
      var error :- Member(flavor, fields, "error", ErrorDecoder(flavor));
      var progress :- Member(flavor, fields, "progress", DecodeProgress);
      Success(Response(name, state, id, result, error, progress, codec))
  }

  /**
   * A decoded reply holds each optional member exactly when its key is present (Java also reads an
   * explicit `null` as absent, except for `id`, whose `null` it refuses), with the value the member
   * decodes to, and keeps the decoder for later polls.
   */
  lemma DecodeSpec<R>(flavor: Flavor, codec: Codec<R>, fields: map<string, Json>)
    requires Decode(flavor, codec, fields).Success?
    ensures var r := Decode(flavor, codec, fields).value;
      && "name" in fields
      && (r.id.Some? <==> "id" in fields)
      && (r.result.Some? <==> "results" in fields && !(flavor == Java && fields["results"].JNull?))
      && (r.result.Some? ==> codec.decode(fields["results"]) == Success(r.result.value))
      && (r.error.Some? <==> "error" in fields && !(flavor == Java && fields["error"].JNull?))
      && (r.error.Some? ==> ErrorDecoder(flavor)(fields["error"]) == Success(r.error.value))
      && (r.progress.Some? <==> "progress" in fields && !(flavor == Java && fields["progress"].JNull?))
      && (r.state.Some? ==> "state" in fields && (fields["state"].JStr? || fields["state"].JNum?))
      && r.resultCodec == codec
  {
    MemberSpec(flavor, fields, "results", codec.decode);
    MemberSpec(flavor, fields, "error", ErrorDecoder(flavor));
    MemberSpec(flavor, fields, "progress", DecodeProgress);
  }
  /** The wire form of a reply: `name`, and a member for each part that is present. */
  function Encode<R>(r: Response<R>): (fields: map<string, Json>) {
    var f := map["name" := JStr(r.name)];
    var f := if r.state.Some? then f["state" := JStr(StateName(r.state.value))] else f;
    var f := if r.id.Some? then f["id" := JStr(r.id.value)] else f;
    var f := if r.result.Some? then f["results" := r.resultCodec.encode(r.result.value)] else f;
    var f := if r.error.Some? then f["error" := EncodeError(r.error.value)] else f;
    if r.progress.Some? then f["progress" := EncodeProgress(r.progress.value)] else f
  }

  /**
   * Decoding the wire form of a reply gives the reply back, given a result codec that round-trips.
   * Java also needs the codec never to write `null`, which Gson would read back as absent; Kotlin
   * needs a state, which it cannot do without.
   */
  lemma DecodeEncode<R(!new)>(flavor: Flavor, r: Response<R>)
    requires RoundTrips(r.resultCodec)
    requires flavor == Java ==> NeverNull(r.resultCodec)
    requires flavor == Kotlin ==> r.state.Some?
    ensures Decode(flavor, r.resultCodec, Encode(r)).Success?
    ensures SameReply(Decode(flavor, r.resultCodec, Encode(r)).value, r)
  {
    EncodeMembers(r);
    if r.error.Some? {
      DecodeEncodeError(r.error.value);
    }
    if r.progress.Some? {
      DecodeEncodeProgress(r.progress.value);
    }
    if flavor == Java {
      DecodeEncodeJava(r);
    } else {
      DecodeEncodeKotlin(r);
    }
  }

  /** Each part of a reply present is written under its key, and only then. */
  lemma EncodeMembers<R>(r: Response<R>)
    ensures var f := Encode(r);
      && f["name"] == JStr(r.name)
      && ("state" in f <==> r.state.Some?) && (r.state.Some? ==> f["state"] == JStr(StateName(r.state.value)))
      && ("id" in f <==> r.id.Some?) && (r.id.Some? ==> f["id"] == JStr(r.id.value))
      && ("results" in f <==> r.result.Some?) && (r.result.Some? ==> f["results"] == r.resultCodec.encode(r.result.value))
      && ("error" in f <==> r.error.Some?) && (r.error.Some? ==> f["error"] == EncodeError(r.error.value))
      && ("progress" in f <==> r.progress.Some?) && (r.progress.Some? ==> f["progress"] == EncodeProgress(r.progress.value))
  {
  }

  lemma DecodeEncodeJava<R(!new)>(r: Response<R>)
    requires RoundTrips(r.resultCodec) && NeverNull(r.resultCodec)
    requires var f := Encode(r);
      && f["name"] == JStr(r.name)
      && ("state" in f <==> r.state.Some?) && (r.state.Some? ==> f["state"] == JStr(StateName(r.state.value)))
      && ("id" in f <==> r.id.Some?) && (r.id.Some? ==> f["id"] == JStr(r.id.value))
      && ("results" in f <==> r.result.Some?) && (r.result.Some? ==> f["results"] == r.resultCodec.encode(r.result.value))
      && ("error" in f <==> r.error.Some?) && (r.error.Some? ==> DecodeError(f["error"]) == Success(r.error.value))
      && ("progress" in f <==> r.progress.Some?) && (r.progress.Some? ==> DecodeProgress(f["progress"]) == Success(r.progress.value))
    ensures Decode(Java, r.resultCodec, Encode(r)).Success?
    ensures SameReply(Decode(Java, r.resultCodec, Encode(r)).value, r)
  {
    if r.error.Some? {
      assert !Encode(r)["error"].JNull?;
    }
    if r.progress.Some? {
      assert !Encode(r)["progress"].JNull?;
    }
  }

  lemma DecodeEncodeKotlin<R(!new)>(r: Response<R>)
    requires RoundTrips(r.resultCodec) && r.state.Some?
    requires var f := Encode(r);
      && f["name"] == JStr(r.name)
      && "state" in f && f["state"] == JStr(StateName(r.state.value))
      && ("id" in f <==> r.id.Some?) && (r.id.Some? ==> f["id"] == JStr(r.id.value))
      && ("results" in f <==> r.result.Some?) && (r.result.Some? ==> f["results"] == r.resultCodec.encode(r.result.value))
      && ("error" in f <==> r.error.Some?) && (r.error.Some? ==> KotlinDecodeError(f["error"]) == Success(r.error.value))
      && ("progress" in f <==> r.progress.Some?) && (r.progress.Some? ==> DecodeProgress(f["progress"]) == Success(r.progress.value))
    ensures Decode(Kotlin, r.resultCodec, Encode(r)).Success?
    ensures SameReply(Decode(Kotlin, r.resultCodec, Encode(r)).value, r)
  {
  }

  /**
   * The reply of the repository's decoding example: a `done` reply carrying an `id` keeps the id,
   * and has neither error nor progress; the state and the optional members are not cross-checked.
   */
  lemma DoneReplyKeepsId<R>(codec: Codec<R>, results: map<string, Json>)
    requires codec.decode(JObj(results)).Success?
    ensures var r := Decode(Java, codec, map["name" := JStr("camera.takePicture"), "state" := JStr("done"),
                                             "id" := JStr("foo"), "results" := JObj(results)]);
      && r.Success?
      && r.value.name == "camera.takePicture"
      && r.value.state == Some(Done)
      && r.value.id == Some("foo")
      && r.value.result.Some?
      && r.value.error.None?
      && r.value.progress.None?
  {
    var f := map["name" := JStr("camera.takePicture"), "state" := JStr("done"), "id" := JStr("foo"), "results" := JObj(results)];
    assert "error" !in f && "progress" !in f;
    assert f["results"] == JObj(results);
  }
}
