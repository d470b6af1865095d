/**
 * The command and option calls of `OSCClient`, over a scripted transport: the camera's replies
 * are a sequence handed over in advance, and every request the client posts is recorded.
 * HTTP, authentication and coroutine scheduling are outside the model.
 */
module Client {
  import opened Wrappers
  import opened Json
  import opened OptionSets
  import opened Commands
  import opened Text
  import MJpeg
  import IsoSpeeds

  const HttpOk: int := 200
  const HttpUnauthorized: int := 401

  const ExecutePath: string := "/osc/commands/execute"
  const StatusPath: string := "/osc/commands/status"
  const CheckForUpdatesPath: string := "/osc/checkForUpdates"

  const GetOptionsCommand: string := "camera.getOptions"
  const SetOptionsCommand: string := "camera.setOptions"
  const LivePreviewCommand: string := "camera.getLivePreview"

  /** The boundary line of the live-preview stream. */
  const LivePreviewBoundary: string := "---osclivepreview---"

  // ---------------------------------------------------------------------------
  // The transport
  // ---------------------------------------------------------------------------

  /** A reply body: empty, not JSON at all, or a JSON value. */
  datatype Body = Empty | Malformed | Parsed(json: Json)

  datatype Reply = Reply(status: int, body: Body)

  /** A request the client posted: the path and the JSON body. */
  datatype Request = Request(path: string, body: Json)

  /** The replies still to come and the requests posted so far. */
  datatype Session = Session(replies: seq<Reply>, sent: seq<Request>)

  /** The outcome of a call, with the session after it. */
  datatype Exchange<+T> = Exchange(result: Result<T>, session: Session) {

    predicate IsFailure() {
      result.Failure?
    }

    function PropagateFailure<U>(): Exchange<U>
      requires IsFailure()
    {
      Exchange(Failure(result.error), session)
    }

    function Extract(): (T, Session)
      requires !IsFailure()
    {
      (result.value, session)
    }
  }

  /**
   * Reading a reply body as a JSON object. Gson gives `null` for an empty body, which the caller
   * then dereferences; its `JsonObject` adapter rejects any other non-object, the literal `null`
   * included, with `JsonSyntaxException`. kotlinx rejects anything but an object.
   */
  function ParseBody(flavor: Flavor, b: Body): (r: Result<map<string, Json>>)
    ensures r.Success? <==> b.Parsed? && b.json.JObj?
    ensures r.Success? ==> r.value == b.json.fields
    ensures flavor == Java && b.Empty? ==> r == Failure(NullPointer)
    ensures r.Failure? && !(flavor == Java && b.Empty?) ==> r.error == Serialization
  {
    if b.Parsed? && b.json.JObj? then Success(b.json.fields)
    else if flavor == Java && b.Empty? then Failure(NullPointer)
    else Failure(Serialization)
  }

  /**
   * `httpPost`: the request is posted and the next reply taken. A 401 raises `IOException` whatever
   * the body holds; any other status, 200 or not, goes on to read the body.
   */
  function Post(flavor: Flavor, s: Session, path: string, body: Json): (x: Exchange<map<string, Json>>)
    ensures x.session.sent == s.sent + [Request(path, body)]
    ensures |s.replies| == 0 ==> x.result == Failure(IO(NoReply)) && x.session.replies == []
    ensures |s.replies| > 0 ==> x.session.replies == s.replies[1..]
    ensures |s.replies| > 0 && s.replies[0].status == HttpUnauthorized ==> x.result == Failure(IO(Unauthorized))
    ensures x.result.Success? <==>
      |s.replies| > 0 && s.replies[0].status != HttpUnauthorized && s.replies[0].body.Parsed? && s.replies[0].body.json.JObj?
    ensures x.result.Success? ==> x.result.value == s.replies[0].body.json.fields
  {
    var sent := s.sent + [Request(path, body)];
    if |s.replies| == 0 then Exchange(Failure(IO(NoReply)), Session([], sent))
    else
      var reply := s.replies[0];
      var rest := Session(s.replies[1..], sent);
      if reply.status == HttpUnauthorized then Exchange(Failure(IO(Unauthorized)), rest)
      else Exchange(ParseBody(flavor, reply.body), rest)
  }

  // ---------------------------------------------------------------------------
  // Commands
  // ---------------------------------------------------------------------------

  /** The body of `Commands/Execute`: `name`, and `parameters` only when there are parameters. */
  function RequestBody(name: string, parameters: Option<Json>): (j: Json)
    ensures j.JObj? && "name" in j.fields && j.fields["name"] == JStr(name)
    ensures "parameters" in j.fields <==> parameters.Some?
    ensures parameters.Some? ==> j.fields["parameters"] == parameters.value
    ensures j.fields.Keys <= {"name", "parameters"}
  {
    var f := map["name" := JStr(name)];
    JObj(if parameters.Some? then f["parameters" := parameters.value] else f)
  }

  /** The rule both command calls share: a reply carrying an error is raised, not returned. */
  function RaiseError<R>(d: Result<Response<R>>): (r: Result<Response<R>>)
    ensures r.Success? <==> d.Success? && d.value.error.None?
    ensures r.Success? ==> r == d
    ensures d.Success? && d.value.error.Some? ==> r == Failure(Camera(d.value.error.value))
    ensures d.Failure? ==> r == d
  {
    match d
    case Success(resp) => if resp.error.Some? then Failure(Camera(resp.error.value)) else d
    case Failure(_) => d
  }

  /** Post a command body and decode the reply with `codec`, raising its error if it has one. */
  function Call<R>(flavor: Flavor, s: Session, path: string, body: Json, codec: Codec<R>): (x: Exchange<Response<R>>)
    ensures x.session.sent == s.sent + [Request(path, body)]
    ensures x.result.Success? ==> x.result.value.error.None? && x.result.value.resultCodec == codec
    ensures x.result.Success? ==> |s.replies| > 0 && x.session.replies == s.replies[1..]
    ensures |x.session.replies| <= |s.replies|
  {
    var got :- Post(flavor, s, path, body);
    var (fields, s1) := got;
    Exchange(RaiseError(Decode(flavor, codec, fields)), s1)
  }

  /** `commandExecute`: one request to the execute path; a returned response never carries an error. */
  function Execute<R>(flavor: Flavor, s: Session, name: string, codec: Codec<R>, parameters: Option<Json>): (x: Exchange<Response<R>>)
    ensures x.session.sent == s.sent + [Request(ExecutePath, RequestBody(name, parameters))]
    ensures x.result.Success? ==> x.result.value.error.None?
    ensures x.result.Success? ==> |s.replies| > 0 && x.session.replies == s.replies[1..]
    ensures |x.session.replies| <= |s.replies|
  {
    Call(flavor, s, ExecutePath, RequestBody(name, parameters), codec)
  }

  /**
   * A call's outcome on a reply the client can read: the decoded reply when it has no error, the
   * camera's error raised when it has one, and the decoding failure otherwise.
   */
  lemma CallOutcome<R>(flavor: Flavor, s: Session, path: string, body: Json, codec: Codec<R>, fields: map<string, Json>)
    requires |s.replies| > 0 && s.replies[0].status != HttpUnauthorized && s.replies[0].body == Parsed(JObj(fields))
    ensures var x := Call(flavor, s, path, body, codec); var d := Decode(flavor, codec, fields);
      && (d.Success? && d.value.error.Some? ==> x.result == Failure(Camera(d.value.error.value)))
      && (d.Success? && d.value.error.None? ==> x.result == d)
      && (d.Failure? ==> x.result == Failure(d.error))
  {
  }

  /**
   * The body of `Commands/Status`: the previous response's `id`. When there is none, Gson leaves
   * the member out while kotlinx writes `"id": null`; neither checks for it first.
   */
  function StatusBody(flavor: Flavor, id: Option<string>): (j: Json)
    ensures j.JObj?
    ensures id.Some? ==> j.fields == map["id" := JStr(id.value)]
    ensures id.None? ==> (flavor == Java <==> "id" !in j.fields)
  {
    if id.Some? then JObj(map["id" := JStr(id.value)])
    else if flavor == Java then JObj(map[])
    else JObj(map["id" := JNull])
  }

  /** `commandStatus`: poll with the previous response's id and decode with its result codec. */
  function Status<R>(flavor: Flavor, s: Session, prev: Response<R>): (x: Exchange<Response<R>>)
    ensures x.session.sent == s.sent + [Request(StatusPath, StatusBody(flavor, prev.id))]
    ensures x.result.Success? ==> x.result.value.error.None? && x.result.value.resultCodec == prev.resultCodec
    ensures x.result.Success? ==> |s.replies| > 0 && x.session.replies == s.replies[1..]
    ensures |x.session.replies| <= |s.replies|
  {
    Call(flavor, s, StatusPath, StatusBody(flavor, prev.id), prev.resultCodec)
  }

  /** `sent` extends `before` with status polls only. */
  predicate PollsAfter(before: seq<Request>, sent: seq<Request>) {
    before <= sent && forall i :: |before| <= i < |sent| ==> sent[i].path == StatusPath
  }

  /**
   * Kotlin's `await`: poll while the state is IN_PROGRESS. A response not in progress comes back
   * as it is, with no request. The loop ends because every poll that returns consumes a reply.
   */
  function Await<R>(s: Session, res: Response<R>): (x: Exchange<Response<R>>)
    decreases |s.replies|
    ensures res.state != Some(InProgress) ==> x.result == Success(res) && x.session == s
    ensures x.result.Success? ==> x.result.value.state != Some(InProgress)
    ensures res.state == Some(InProgress) && x.result.Success? ==> x.result.value.error.None?
    ensures |x.session.replies| <= |s.replies|
    ensures PollsAfter(s.sent, x.session.sent)
  {
    if res.state != Some(InProgress) then Exchange(Success(res), s)
    else
      var got :- Status(Kotlin, s, res);
      var (next, s1) := got;
      Await(s1, next)
  }

  // ---------------------------------------------------------------------------
  // Options
  // ---------------------------------------------------------------------------

  /** The names, in order, as JSON strings. */
  function Strings(names: seq<string>): (js: seq<Json>)
    ensures |js| == |names|
    ensures forall i :: 0 <= i < |names| ==> js[i] == JStr(names[i])
  {
    seq(|names|, i requires 0 <= i < |names| => JStr(names[i]))
  }

  /** The `camera.getOptions` parameter: the names under `optionNames`, in collection order. */
  function OptionNames(names: seq<string>): Json {
    JObj(map["optionNames" := JArr(Strings(names))])
  }

  predicate AllPresent<T>(xs: seq<Option<T>>) {
    forall i :: 0 <= i < |xs| ==> xs[i].Some?
  }

  function Values<T>(xs: seq<Option<T>>): (vs: seq<T>)
    requires AllPresent(xs)
    ensures |vs| == |xs|
    ensures forall i :: 0 <= i < |xs| ==> xs[i] == Some(vs[i])
  {
    seq(|xs|, i requires 0 <= i < |xs| => xs[i].value)
  }

  /** Java reads the `results` of `camera.getOptions` with the option set's adapter. */
  const JavaOptionSetCodec: Codec<OptionSet> := Codec(JavaSerialize, JavaDeserialize)

  /**
   * Kotlin reads the `results` of `camera.getOptions` as a record whose `options` member is read
   * by the option set's serializer.
   */
  function KotlinOptionsResult(j: Json): (r: Result<OptionSet>)
    ensures r.Success? <==> j.JObj? && OptionsKey in j.fields && j.fields[OptionsKey].JObj?
    ensures r.Success? ==> r.value.data == j.fields[OptionsKey].fields
  {
    if !j.JObj? || OptionsKey !in j.fields then Failure(Serialization)
    else KotlinDeserialize(j.fields[OptionsKey])
  }

  const KotlinOptionsCodec: Codec<OptionSet> := Codec((s: OptionSet) => JObj(map[OptionsKey := KotlinSerialize(s)]), KotlinOptionsResult)

  /** Both option-set codecs read back what they write, and neither writes `null`. */
  lemma OptionSetCodecsRoundTrip()
    ensures RoundTrips(JavaOptionSetCodec) && NeverNull(JavaOptionSetCodec)
    ensures RoundTrips(KotlinOptionsCodec) && NeverNull(KotlinOptionsCodec)
  {
    forall s: OptionSet
      ensures JavaOptionSetCodec.decode(JavaOptionSetCodec.encode(s)) == Success(s)
    {
      JavaRoundTrip(s);
    }
  }

  /**
   * Java `getOptions`: an empty collection raises `IllegalArgumentException` and a `null` element
   * `NullPointerException`, both before any request; otherwise the names go out in order and the
   * reply's `results` come back, `null` when the reply has none.
   */
  function JavaGetOptions(s: Session, options: seq<Option<string>>): (x: Exchange<Option<OptionSet>>)
    ensures |options| == 0 ==> x == Exchange(Failure(IllegalArgument), s)
    ensures |options| > 0 && !AllPresent(options) ==> x == Exchange(Failure(NullPointer), s)
    ensures |options| > 0 && AllPresent(options) ==>
      x.session.sent == s.sent + [Request(ExecutePath, RequestBody(GetOptionsCommand, Some(OptionNames(Values(options)))))]
  {
    if |options| == 0 then Exchange(Failure(IllegalArgument), s)
    else if !AllPresent(options) then Exchange(Failure(NullPointer), s)
    else
      var got :- Execute(Java, s, GetOptionsCommand, JavaOptionSetCodec, Some(OptionNames(Values(options))));
      var (response, s1) := got;
      Exchange(Success(response.result), s1)
  }

  /**
   * Kotlin `getOptions`: an empty collection raises `IllegalArgumentException` before any request;
   * a reply without `results` raises `NullPointerException` (`result!!`).
   */
  function KotlinGetOptions(s: Session, names: seq<string>): (x: Exchange<OptionSet>)
    ensures |names| == 0 ==> x == Exchange(Failure(IllegalArgument), s)
    ensures |names| > 0 ==>
      x.session.sent == s.sent + [Request(ExecutePath, RequestBody(GetOptionsCommand, Some(OptionNames(names))))]
  {
    if |names| == 0 then Exchange(Failure(IllegalArgument), s)
    else
      var got :- Execute(Kotlin, s, GetOptionsCommand, KotlinOptionsCodec, Some(OptionNames(names)));
      var (response, s1) := got;
      if response.result.None? then Exchange(Failure(NullPointer), s1)
      else Exchange(Success(response.result.value), s1)
  }

  /** Java `getOption`: `getOptions(option).get(option)`, so an option missing from the reply reads as `null`. */
  function JavaGetOption<T>(s: Session, option: Option<Token<T>>): (x: Exchange<Option<T>>)
    ensures option.None? ==> x == Exchange(Failure(NullPointer), s)
  {
    if option.None? then Exchange(Failure(NullPointer), s)
    else
      var got :- JavaGetOptions(s, [Some(option.value.name)]);
      var (optionSet, s1) := got;
      if optionSet.None? then Exchange(Failure(NullPointer), s1)
      else Exchange(JavaGet(optionSet.value, option), s1)
  }

  /** Kotlin `getOption`: `getOptions(option)[option]!!`, so an option missing from the reply raises `NullPointerException`. */
  function KotlinGetOption<T>(s: Session, t: Token<T>): (x: Exchange<T>) {
    var got :- KotlinGetOptions(s, [t.name]);
    var (optionSet, s1) := got;
    match KotlinGet(optionSet, t)
    case Failure(e) => Exchange(Failure(e), s1)
    case Success(v) => if v.None? then Exchange(Failure(NullPointer), s1) else Exchange(Success(v.value), s1)
  }

  /** A `camera.getOptions` reply whose option set is `m`, in the wire form both versions read. */
  function OptionsReply(m: map<string, Json>): Reply {
    Reply(HttpOk, Parsed(JObj(map["name" := JStr(GetOptionsCommand), "state" := JStr("done"),
                                  "results" := JObj(map[OptionsKey := JObj(m)])])))
  }

  /** Both versions decode the `results` of an options reply to the same option set. */
  lemma OptionsReplyDecodes(flavor: Flavor, m: map<string, Json>)
    ensures var fields := OptionsReply(m).body.json.fields;
      var codec := if flavor == Java then JavaOptionSetCodec else KotlinOptionsCodec;
      && Decode(flavor, codec, fields).Success?
      && Decode(flavor, codec, fields).value.error.None?
      && Decode(flavor, codec, fields).value.result == Some(OptionSet(m))
  {
    var fields := OptionsReply(m).body.json.fields;
    assert "error" !in fields && "progress" !in fields && "id" !in fields;
    assert fields["results"] == JObj(map[OptionsKey := JObj(m)]);
    assert fields["name"] == JStr(GetOptionsCommand) && fields["state"] == JStr("done");
  }

  /**
   * A Java getOptions reply whose `results` is neither an object nor `null`: the adapter's
   * `getAsJsonObject()` raises `IllegalStateException`, which `Gson.fromJson` reports as a syntax error.
   */
  lemma JavaResultsNotObject(fields: map<string, Json>)
    requires "name" in fields && fields["name"].JStr?
    requires "state" in fields ==> fields["state"].JStr?
    requires "id" in fields ==> fields["id"].JStr?
    requires "results" in fields && !fields["results"].JObj? && !fields["results"].JNull?
    ensures Decode(Java, JavaOptionSetCodec, fields) == Failure(Serialization)
  {
    MemberSpec(Java, fields, "results", JavaOptionSetCodec.decode);
  }

  /** The Java `ISO` option: its values go through `ISOSpeed`'s adapter. */
  const JavaIsoToken: Token<Option<IsoSpeeds.IsoSpeed>> :=
    Token("iso", Codec((v: Option<IsoSpeeds.IsoSpeed>) => if v.None? then JNull else IsoSpeeds.Serialize(v.value),
                       IsoSpeeds.Deserialize))

  /**
   * An `iso` value that is a list of two numbers: `getAsInt()` in the adapter raises
   * `IllegalStateException`, and Java's `get` reports it as a syntax error.
   */
  lemma JavaIsoListRejected(s: OptionSet)
    requires "iso" in s.data && s.data["iso"] == JArr([IntJson(100), IntJson(200)])
    ensures JavaGet(s, Some(JavaIsoToken)) == Failure(Serialization)
  {
    assert GsonAsInt(s.data["iso"]) == Failure(IllegalState);
    JavaGetRethrows(s, JavaIsoToken);
  }

  /**
   * On a reply that does not hold the option, Java's `getOption` answers `null` while Kotlin's
   * raises `NullPointerException`; on a reply that holds a non-null value for it, both decode it.
   */
  lemma GetOptionFlavors<T>(rest: seq<Reply>, sent: seq<Request>, t: Token<T>, m: map<string, Json>)
    ensures var s := Session([OptionsReply(m)] + rest, sent);
      && (t.name !in m ==> JavaGetOption(s, Some(t)).result == Success(None))
      && (t.name !in m ==> KotlinGetOption(s, t).result == Failure(NullPointer))
      && (t.name in m && !m[t.name].JNull? && t.codec.decode(m[t.name]).Success? ==>
            JavaGetOption(s, Some(t)).result == Success(Some(t.codec.decode(m[t.name]).value))
            && KotlinGetOption(s, t).result == Success(t.codec.decode(m[t.name]).value))
  {
    var s := Session([OptionsReply(m)] + rest, sent);
    OptionsReplyDecodes(Java, m);
    OptionsReplyDecodes(Kotlin, m);
    assert AllPresent([Some(t.name)]);
    CallOutcome(Java, s, ExecutePath, RequestBody(GetOptionsCommand, Some(OptionNames(Values([Some(t.name)])))),
                JavaOptionSetCodec, OptionsReply(m).body.json.fields);
    CallOutcome(Kotlin, s, ExecutePath, RequestBody(GetOptionsCommand, Some(OptionNames([t.name]))),
                KotlinOptionsCodec, OptionsReply(m).body.json.fields);
  }

  /** `camera.setOptions` has no result worth reading: an object is accepted as it is. */
  const UnitCodec: Codec<()> := Codec((_: ()) => JObj(map[]), (j: Json) => if j.JObj? then Success(()) else Failure(Serialization))

  /**
   * Java `setOption`: a new builder, one put (which refuses a `null` option or value before any
   * request), `build()`, and `setOptions` with the set in its `{"options": ...}` form.
   */
  function JavaSetOption<T>(s: Session, option: Option<Token<T>>, value: Option<T>): (x: Exchange<()>)
    ensures option.None? || value.None? ==> x == Exchange(Failure(NullPointer), s)
    ensures option.Some? && value.Some? ==>
      x.session.sent == s.sent + [Request(ExecutePath, RequestBody(SetOptionsCommand,
        Some(JavaSerialize(OptionSet(map[option.value.name := option.value.codec.encode(value.value)])))))]
  {
    match JavaSingle(option, value)
    case Failure(e) => Exchange(Failure(e), s)
    case Success(optionSet) =>
      var got :- Execute(Java, s, SetOptionsCommand, UnitCodec, Some(JavaSerialize(optionSet)));
      var (_, s1) := got;
      Exchange(Success(()), s1)
  }

  /** Kotlin `setOption`: `setOptions { put(option, value) }`, the set sent under `options`. */
  function KotlinSetOption<T>(s: Session, t: Token<T>, v: T): (x: Exchange<()>)
    ensures x.session.sent == s.sent +
      [Request(ExecutePath, RequestBody(SetOptionsCommand,
        Some(JObj(map[OptionsKey := KotlinSerialize(OptionSet(map[t.name := t.codec.encode(v)]))]))))]
  {
    var optionSet := KotlinBuild(KotlinPut(map[], t, v));
    var got :- Execute(Kotlin, s, SetOptionsCommand, UnitCodec, Some(JObj(map[OptionsKey := KotlinSerialize(optionSet)])));
    var (_, s1) := got;
    Exchange(Success(()), s1)
  }

  /** Both versions send the same request for one option: a set with exactly that one entry. */
  lemma SetOptionFlavorsAgree<T>(s: Session, t: Token<T>, v: T)
    ensures JavaSetOption(s, Some(t), Some(v)).session.sent == KotlinSetOption(s, t, v).session.sent
    ensures var p := KotlinSetOption(s, t, v).session.sent[|s.sent|].body.fields["parameters"];
      p.JObj? && p.fields.Keys == {OptionsKey} && p.fields[OptionsKey].fields.Keys == {t.name}
  {
    WireFormsAgree(OptionSet(map[t.name := t.codec.encode(v)]));
  }

  // ---------------------------------------------------------------------------
  // checkForUpdates
  // ---------------------------------------------------------------------------

  function FingerprintBody(fingerprint: string): Json {
    JObj(map["stateFingerprint" := JStr(fingerprint)])
  }

  /**
   * Java `checkForUpdates` as written: it reads `state` unconditionally, so a reply without a
   * `state` member raises `NullPointerException`; a `state` of `error` raises the reply read as an
   * error object; otherwise it returns `stateFingerprint`.
   */
  function JavaCheckForUpdatesAsWritten(s: Session, fingerprint: Option<string>): (x: Exchange<string>)
    ensures fingerprint.None? ==> x == Exchange(Failure(NullPointer), s)
    ensures fingerprint.Some? ==> x.session.sent == s.sent + [Request(CheckForUpdatesPath, FingerprintBody(fingerprint.value))]
  {
    if fingerprint.None? then Exchange(Failure(NullPointer), s)
    else
      var got :- Post(Java, s, CheckForUpdatesPath, FingerprintBody(fingerprint.value));
      var (fields, s1) := got;
      if "state" !in fields then Exchange(Failure(NullPointer), s1)
      else
        match GsonAsString(fields["state"])
        case Failure(e) => Exchange(Failure(e), s1)
        case Success(state) => ReadFingerprint(fields, state, s1)
  }

  /** The rest of Java's `checkForUpdates` once `state` has been read. */
  function ReadFingerprint(fields: map<string, Json>, state: string, s1: Session): (x: Exchange<string>)
    ensures x.session == s1
  {
    if state == "error" then
      match DecodeError(JObj(fields))
      case Failure(e) => Exchange(Failure(e), s1)
      case Success(err) => Exchange(Failure(Camera(err)), s1)
    else if "stateFingerprint" !in fields then Exchange(Failure(NullPointer), s1)
    else
      match GsonAsString(fields["stateFingerprint"])
      case Failure(e) => Exchange(Failure(e), s1)
      case Success(fp) => Exchange(Success(fp), s1)
  }

  /**
   * Java `checkForUpdates` as its contract describes it: the `state` test applies only to a reply
   * that has a `state` member, so a normal reply's `stateFingerprint` is returned.
   */
  function JavaCheckForUpdates(s: Session, fingerprint: Option<string>): (x: Exchange<string>)
    ensures fingerprint.None? ==> x == Exchange(Failure(NullPointer), s)
    ensures fingerprint.Some? ==> x.session.sent == s.sent + [Request(CheckForUpdatesPath, FingerprintBody(fingerprint.value))]
  {
    if fingerprint.None? then Exchange(Failure(NullPointer), s)
    else
      var got :- Post(Java, s, CheckForUpdatesPath, FingerprintBody(fingerprint.value));
      var (fields, s1) := got;
      if "state" !in fields then ReadFingerprint(fields, "", s1)
      else
        match GsonAsString(fields["state"])
        case Failure(e) => Exchange(Failure(e), s1)
        case Success(state) => ReadFingerprint(fields, state, s1)
  }

  /** Kotlin `checkForUpdates`: an `error` member is raised; otherwise `stateFingerprint` is returned (`!!`). */
  function KotlinCheckForUpdates(s: Session, fingerprint: string): (x: Exchange<string>)
    ensures x.session.sent == s.sent + [Request(CheckForUpdatesPath, FingerprintBody(fingerprint))]
  {
    var got :- Post(Kotlin, s, CheckForUpdatesPath, FingerprintBody(fingerprint));
    var (fields, s1) := got;
    if "error" in fields then
      match KotlinDecodeError(fields["error"])
      case Failure(e) => Exchange(Failure(e), s1)
      case Success(err) => Exchange(Failure(Camera(err)), s1)
    else if "stateFingerprint" !in fields then Exchange(Failure(NullPointer), s1)
    else
      match KotlinContent(fields["stateFingerprint"])
      case Failure(e) => Exchange(Failure(e), s1)
      case Success(fp) => Exchange(Success(fp), s1)
  }

  /** The reply the `checkForUpdates` endpoint sends when all is well: a fingerprint and a throttle timeout. */
  function UpdatesReply(fingerprint: string, throttleTimeout: int): Reply {
    Reply(HttpOk, Parsed(JObj(map["stateFingerprint" := JStr(fingerprint), "throttleTimeout" := IntJson(throttleTimeout)])))
  }

  /**
   * On a normal reply, which has no `state` member, Java's `checkForUpdates` as written raises
   * `NullPointerException`; the corrected version and the Kotlin one return the fingerprint.
   */
  lemma NormalUpdatesReply(rest: seq<Reply>, sent: seq<Request>, old_: string, fp: string, timeout: int)
    ensures var s := Session([UpdatesReply(fp, timeout)] + rest, sent);
      && JavaCheckForUpdatesAsWritten(s, Some(old_)).result == Failure(NullPointer)
      && JavaCheckForUpdates(s, Some(old_)).result == Success(fp)
      && KotlinCheckForUpdates(s, old_).result == Success(fp)
  {
    var fields := UpdatesReply(fp, timeout).body.json.fields;
    assert "state" !in fields && "error" !in fields;
    assert fields["stateFingerprint"] == JStr(fp);
  }

  /** Where a reply has a `state` member, the corrected Java version behaves exactly as written. */
  lemma CheckForUpdatesAgreeWithState(s: Session, fingerprint: Option<string>)
    requires |s.replies| > 0 && s.replies[0].body.Parsed? && s.replies[0].body.json.JObj?
    requires "state" in s.replies[0].body.json.fields
    ensures JavaCheckForUpdates(s, fingerprint) == JavaCheckForUpdatesAsWritten(s, fingerprint)
  {
  }

  /**
   * An error reply: Java raises when `state` is `error`, reading the error from the top level of
   * the reply; Kotlin raises when an `error` member is present, reading that member.
   */
  lemma ErrorUpdatesReply(rest: seq<Reply>, sent: seq<Request>, old_: string, e: CameraError)
    ensures var fields := map["state" := JStr("error"), "error" := EncodeError(e)];
      var s := Session([Reply(HttpOk, Parsed(JObj(fields)))] + rest, sent);
      && JavaCheckForUpdates(s, Some(old_)).result == Failure(Camera(CameraError(None, None)))
      && KotlinCheckForUpdates(s, old_).result == Failure(Camera(e))
  {
    var fields := map["state" := JStr("error"), "error" := EncodeError(e)];
    assert "code" !in fields && "message" !in fields;
    DecodeEncodeError(e);
  }

  // ---------------------------------------------------------------------------
  // Live preview (Kotlin)
  // ---------------------------------------------------------------------------

  /** The reply of the live-preview request: a status, the body read as JSON, and the raw byte stream. */
  datatype StreamReply = StreamReply(status: int, body: Body, stream: seq<byte>)

  const LivePreviewRequest: Json := JObj(map["name" := JStr(LivePreviewCommand)])

  /**
   * Kotlin `getLivePreview`: 401 raises `IOException`; any other status but 200 reads the body
   * as a reply and raises its error (`error!!`, so a reply without one raises
   * `NullPointerException`); 200 hands the stream to a frame reader for the preview boundary.
   */
  function KotlinLivePreview(reply: StreamReply): (r: Result<MJpeg.Parser>)
    ensures r.Success? <==> reply.status == HttpOk
    ensures reply.status == HttpUnauthorized ==> r == Failure(IO(Unauthorized))
    ensures r.Success? ==> r.value == MJpeg.Parser(LivePreviewBoundary, reply.stream, 0, true)
    ensures r.Failure? && reply.status != HttpUnauthorized ==> !r.error.IO?
  {
    if reply.status == HttpUnauthorized then Failure(IO(Unauthorized))
    else if reply.status != HttpOk then
      var fields :- ParseBody(Kotlin, reply.body);
      var res :- Decode(Kotlin, UnitCodec, fields);
      if res.error.None? then Failure(NullPointer) else Failure(Camera(res.error.value))
    else MJpeg.FromHttpStream(Some(LivePreviewBoundary), Some(reply.stream))
  }

  /** A non-200 reply carrying an error object raises that error. */
  lemma LivePreviewErrorReply(status: int, e: CameraError, stream: seq<byte>)
    requires status != HttpOk && status != HttpUnauthorized
    ensures var fields := map["name" := JStr(LivePreviewCommand), "state" := JStr("error"), "error" := EncodeError(e)];
      KotlinLivePreview(StreamReply(status, Parsed(JObj(fields)), stream)) == Failure(Camera(e))
  {
    var fields := map["name" := JStr(LivePreviewCommand), "state" := JStr("error"), "error" := EncodeError(e)];
    assert "id" !in fields && "results" !in fields && "progress" !in fields;
    assert fields["name"] == JStr(LivePreviewCommand) && fields["state"] == JStr("error") && fields["error"] == EncodeError(e);
    DecodeEncodeError(e);
  }
}
