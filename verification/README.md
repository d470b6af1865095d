# theta4j Open Spherical Camera client — Dafny model

theta4j is a client for the Open Spherical Camera (OSC) HTTP/JSON API of RICOH THETA cameras. It
has two parallel implementations: a Java one built on Gson and a Kotlin one built on
kotlinx.serialization. This project models the logic underneath both and proves what each promises.
Where the two differ, both are modelled, and the difference is stated as a lemma.

- **Live-preview frame reader** (`MJpeg`, in `mjpeg.dfy`).
  - The stream is a `seq<byte>`, where `byte` is the subset of `int` from 0 to 255, read through an explicit cursor.
  - `readLine` drops every CR and ends at the first LF.
  - `skipBoundaryLines` and `readHeaders` work over those lines.
  - okhttp's `Headers.Builder.add` and `Headers.get` are modelled as the library documents them.
  - `Content-Length` is parsed with `Integer.parseInt`.
  - The frame is a bounded view whose close does not reach the reader, as in commons-io's `BoundedInputStream`.
  - A reader that never returns is the outcome `Hang`.
- **Typed option bag** (`OptionSets`, plus the token tables `JavaOptions`, `KotlinOptions` and `Registry`).
  - An option set is a map from wire name to JSON value.
  - A token is a wire name and a codec.
  - Java's builder works on a heap of maps, so the aliasing in `build()` can be observed.
  - The Java codec wraps the set in `{"options": ...}` on the wire; the Kotlin one writes a flat object.
- **Command replies and the client** (`Commands`, `Client`).
  - The reply record has optional `id`, `results`, `error` and `progress`.
  - The HTTP transport is a scripted session: a list of replies yet to come and the requests sent so far.
  - On top of it sit `commandExecute`, `commandStatus`, Kotlin's `await`, `getOption(s)`, `setOption`, `checkForUpdates` and Kotlin's `getLivePreview` status handling.
- **Wire-code enums and value types.**
  - `CodeTables` models `Collectors.toMap` and the adapters' `map.get`.
  - Each enum has its own module (`IsoSpeeds`, `ExposurePrograms`, `ApiVersions`, `WlanChannels`, `Apertures`, `ExposureCompensations`, `ShutterSpeeds`, `ShutterSpeedTexts`).
  - The value types are the two `AutoBracketProgram`s (`JavaAutoBracket`, `KotlinAutoBracket`), `AccessPoint` (`AccessPoints`) and `ConvertVideoFormats.Size`.

Shared definitions:
- `Wrappers` holds `Result`/`Option` and the exception kinds the source raises.
- `Numbers` holds `Integer.parseInt`/`toString` and `BigDecimal`.
  - `BigDecimal` is `Decimal(unscaled, scale)` with structural equality, which is Java's scale-sensitive `equals`.
- `Text` holds splitting, trimming and ASCII case folding.
- `Json` holds the JSON datatype and Gson's `getAsInt`/`getAsBigDecimal`/`getAsString`.

## Model

| member | source | states |
|---|---|---|
| MJpeg.ReadLine | src/main/java/org/theta4j/osc/MJpegInputStream.java:86-99 | a line read ends just past an LF; only the reader as written can hang, and only the checked reader raises, with end of stream |
| MJpeg.ReadLineSpec | src/main/java/org/theta4j/osc/MJpegInputStream.java:86-99 | a line is read exactly when an LF remains; it ends at the first LF and is the bytes before it with every CR removed |
| MJpeg.LineEndSpec | src/main/java/org/theta4j/osc/MJpegInputStream.kt:70-79 | the line end is -1 exactly when no LF is left, and otherwise no LF lies between the cursor and it |
| MJpeg.ReadLineOf | src/main/java/org/theta4j/osc/MJpegInputStream.java:86-99 | a line without CR or LF, followed by CRLF, reads back as exactly that line |
| MJpeg.TruncatedLineHangs | src/main/java/org/theta4j/osc/MJpegInputStream.java:89-96 | on a stream that ends inside a line, the reader as written never returns and the checked reader raises end of stream |
| MJpeg.SkipBoundary | src/main/java/org/theta4j/osc/MJpegInputStream.java:62-72 | the boundary search advances the cursor when it succeeds, raises only for an unexpected line or, when checked, end of stream, and never succeeds for an empty boundary |
| MJpeg.SkipBoundaryFinds | src/main/java/org/theta4j/osc/MJpegInputStream.java:62-72 | any number of blank lines followed by the boundary line is skipped to just past the boundary line |
| MJpeg.SkipBoundaryRejects | src/main/java/org/theta4j/osc/MJpegInputStream.kt:47-56 | blank lines followed by another non-blank line raise IOException |
| MJpeg.ParseHeaderLine | src/main/java/org/theta4j/osc/MJpegInputStream.java:81 | adding a header line fails only with IllegalArgumentException |
| MJpeg.ParseHeaderLineSpec | src/main/java/org/theta4j/osc/MJpegInputStream.java:81 | a line without ':' is rejected, and every header accepted passes okhttp's name and value checks |
| MJpeg.ParseFormatHeader | src/main/java/org/theta4j/osc/MJpegInputStream.java:81 | a `Name: value` line parses back to the header it was written from |
| MJpeg.ReadHeaders | src/main/java/org/theta4j/osc/MJpegInputStream.java:74-84 | reading headers advances the cursor, and fails only through a header check or end of stream |
| MJpeg.ReadHeadersValid | src/main/java/org/theta4j/osc/MJpegInputStream.kt:58-68 | every header returned passed okhttp's checks |
| MJpeg.ReadHeaderBlock | src/main/java/org/theta4j/osc/MJpegInputStream.java:74-84 | a header block reads back as its headers in order, with the cursor just past the blank line |
| MJpeg.LastIndexSpec | src/main/java/org/theta4j/osc/MJpegInputStream.java:46 | the search from the back finds the last header whose name matches ignoring case, or reports that none does |
| MJpeg.LookupSpec | src/main/java/org/theta4j/osc/MJpegInputStream.java:46 | a header lookup gives the value of the last case-insensitive name match, and nothing exactly when no name matches |
| MJpeg.ContentLengthSpec | src/main/java/org/theta4j/osc/MJpegInputStream.java:46 | the length is the last Content-Length header, matched ignoring case, parsed by parseInt: success exactly when it is an int, NumberFormatException when it is not; a missing header raises NumberFormatException in Java and NullPointerException in Kotlin |
| MJpeg.MissingLengthDiffers | src/main/java/org/theta4j/osc/MJpegInputStream.kt:37 | a block without Content-Length raises NumberFormatException in Java and NullPointerException in Kotlin |
| MJpeg.NegativeLengthIsUnbounded | src/main/java/org/theta4j/osc/MJpegInputStream.java:46-47 | a negative Content-Length parses, and the frame it makes has no limit |
| MJpeg.FromHttpStream | src/main/java/org/theta4j/osc/MJpegInputStream.java:27-32 | construction fails with NullPointerException exactly when the boundary or the stream is null, and otherwise starts open at position 0 |
| MJpeg.NextFrameWith | src/main/java/org/theta4j/osc/MJpegInputStream.java:43-50 | a closed reader raises IOException; a frame returned is unread, bounded by a 32-bit length, and does not propagate its close |
| MJpeg.NextFrameErrors | src/main/java/org/theta4j/osc/MJpegInputStream.kt:34-41 | the only exceptions are IOException, IllegalArgumentException, NumberFormatException, and NullPointerException in Kotlin only |
| MJpeg.NextFrame | src/main/java/org/theta4j/osc/MJpegInputStream.java:43-50 | the reader as written: a closed reader raises IOException, and a frame returned starts unread and does not propagate its close |
| MJpeg.NextFrameChecked | src/main/java/org/theta4j/osc/MJpegInputStream.java:43-50 | with an end-of-stream check in the line reader, nextFrame never hangs, and a closed reader still raises IOException |
| MJpeg.CheckedAgreesUnlessHang | src/main/java/org/theta4j/osc/MJpegInputStream.java:89-96 | the checked reader agrees with the reader as written on every run that returns, and raises end of stream where that one hangs |
| MJpeg.Close | src/main/java/org/theta4j/osc/MJpegInputStream.java:57-60 | closing marks the reader closed and leaves its data and cursor alone |
| MJpeg.CloseFrame | src/main/java/org/theta4j/osc/MJpegInputStream.java:48 | closing a frame closes the reader exactly when the frame propagates its close |
| MJpeg.FrameCloseKeepsReader | src/main/java/org/theta4j/osc/MJpegInputStream.kt:38-40 | closing a frame from nextFrame leaves the reader unchanged |
| MJpeg.ReadFrame | src/main/java/org/theta4j/osc/MJpegInputStream.java:47 | a read yields min(request, what the limit and the data leave) bytes from the cursor; it fails only on a closed reader with bytes left to read |
| MJpeg.ReadAll | src/main/java/org/theta4j/osc/MJpegInputStream.java:47 | reading a frame to its end in chunks of any positive size yields the whole bounded payload |
| MJpeg.NextFrameOfPart | src/main/java/org/theta4j/osc/MJpegInputStream.java:43-50 | at a well-formed part, nextFrame returns a frame over exactly that part's payload |
| MJpeg.ReadPart | src/main/java/org/theta4j/osc/MJpegInputStream.java:43-50 | a part read and drained yields its payload and leaves the cursor where the next part begins |
| MJpeg.BackToBack | src/test/java/org/theta4j/osc/MJPEGInputStreamTest.kt:29-56 | back-to-back parts read in turn yield each payload in order and end just past the last part |
| MJpeg.UnreadFrameBreaksNext | src/main/java/org/theta4j/osc/MJpegInputStream.java:34-50 | a frame left unread makes the next nextFrame read the payload as lines and fail |
| OptionSets.CreateToken | src/main/java/org/theta4j/osc/Option.java:56-61 | a token is created exactly when the name and the type are both non-null |
| OptionSets.DecodeAllSpec | src/main/java/org/theta4j/osc/OptionSet.kt:40-43 | element-wise decoding succeeds exactly when every element decodes, keeping each value in place |
| OptionSets.DecodeEncodeAll | src/main/java/org/theta4j/osc/OptionSet.kt:57-61 | a codec that round-trips single values round-trips lists of them |
| OptionSets.GsonDecodeEncodeAll | src/main/java/org/theta4j/osc/OptionSet.java:90-92 | Gson's element-wise decoding reads back every encoded element, each present |
| OptionSets.GsonNullElement | src/main/java/org/theta4j/osc/OptionSet.java:90-92 | a JSON null element becomes a null list entry without consulting the codec |
| OptionSets.JavaGet | src/main/java/org/theta4j/osc/OptionSet.java:61-71 | a null token raises NullPointerException, an absent name reads null, and a stored value is decoded with the token's type |
| OptionSets.JavaGetRethrows | src/main/java/org/theta4j/osc/OptionSet.java:70 | a stored value whose adapter raises IllegalStateException makes `get` raise a syntax error instead, as `Gson.fromJson` rethrows it |
| OptionSets.JavaGetArray | src/main/java/org/theta4j/osc/OptionSet.java:81-93 | an absent name reads null, a stored non-array raises IllegalStateException, and a list read has one entry per array element |
| OptionSets.JavaPut | src/main/java/org/theta4j/osc/OptionSet.java:109-115 | a put fails exactly on a null token or value; otherwise the name is added to the map's keys |
| OptionSets.JavaGetAfterPut | src/main/java/org/theta4j/osc/OptionSet.java:109-115 | after a put the token reads back the value, and tokens with other names read what they read before |
| OptionSets.JavaPutOverwrites | src/main/java/org/theta4j/osc/OptionSet.java:109-115 | a second put under the same name replaces the first |
| OptionSets.BuilderPutFrame | src/main/java/org/theta4j/osc/OptionSet.java:109-115 | a put through one builder changes only the map that builder points to |
| OptionSets.BuildAliased | src/main/java/org/theta4j/osc/OptionSet.java:120-122 | build as written makes the set read the builder's own map |
| OptionSets.AliasedSetSeesLaterPut | src/main/java/org/theta4j/osc/OptionSet.java:120-122 | with the aliasing build, a set built empty reads a value put into its builder afterwards |
| OptionSets.BuildCopying | src/main/java/org/theta4j/osc/OptionSet.java:120-122 | the copying build gives a set with the builder's current contents in a new map, leaving every existing map untouched |
| OptionSets.CopyingSetIsolated | src/main/java/org/theta4j/osc/OptionSet.java:120-122 | with the copying build, later puts do not change a built set |
| OptionSets.JavaRoundTrip | src/main/java/org/theta4j/osc/OptionSet.java:127-145 | Java deserialisation reads back what serialisation writes |
| OptionSets.JavaDeserializeSpec | src/main/java/org/theta4j/osc/OptionSet.java:127-134 | decoding succeeds exactly for an object whose `options` member is an object, and keeps exactly that member's entries |
| OptionSets.JavaSampleReply | src/test/java/org/theta4j/osc/OptionSetTest.java:34-42 | the sample reply reads as iso 100, aperture 2.0 and iso support [100, 200] |
| OptionSets.KotlinGet | src/main/java/org/theta4j/osc/OptionSet.kt:35-38 | an absent name reads null; a stored value, JSON null included, reads exactly when the codec accepts it |
| OptionSets.KotlinGetArray | src/main/java/org/theta4j/osc/OptionSet.kt:40-43 | an absent name reads null, a stored non-array is rejected, and a list read has one entry per array element |
| OptionSets.KotlinGetAfterPut | src/main/java/org/theta4j/osc/OptionSet.kt:53-55 | after a put the token reads back the value, and other names read what they read before |
| OptionSets.KotlinGetArrayAfterPut | src/main/java/org/theta4j/osc/OptionSet.kt:57-61 | after an array put the token reads back the list, element for element and in order |
| OptionSets.KotlinBuilderPut | src/main/java/org/theta4j/osc/OptionSet.kt:53-55 | a Kotlin put changes the builder's own map, as `put` does, and no other map |
| OptionSets.KotlinAliasedSetSeesLaterPut | src/main/java/org/theta4j/osc/OptionSet.kt:63-66 | inside a `buildOptionSet` block, a set built early and empty reads a value put afterwards, because `OptionSet(data)` wraps the live map |
| OptionSets.KotlinCopyingSetIsolated | src/main/java/org/theta4j/osc/OptionSet.kt:63 | with a copying build, a set built early keeps what the builder held at that moment |
| OptionSets.KotlinPutOverwrites | src/main/java/org/theta4j/osc/OptionSet.kt:53-55 | a second put under the same name replaces the first |
| OptionSets.KotlinRoundTrip | src/main/java/org/theta4j/osc/OptionSet.kt:77-89 | a JSON value decodes to a set exactly when that set encodes to it |
| OptionSets.WireFormsAgree | src/main/java/org/theta4j/osc/OptionSet.java:137-145 | Java's wire form is Kotlin's wrapped in `{"options": ...}`, and both decode it to the same set |
| OptionSets.KotlinSerializerFlat | src/test/java/org/theta4j/osc/OptionSetTest.kt:31-62 | the Kotlin codec writes `{}` for the empty set and accepts `{}`, `{"hello":null}` and `{"options":1}`, against the test's expectations |
| Registry.TableTokensIndependent | src/main/java/org/theta4j/osc/OptionSet.java:109-115 | in a table with distinct names, a put through one token never changes what another reads, in either implementation |
| JavaOptions.SupportNames | src/main/java/org/theta4j/webapi/Options.java:72-101 | every support token's name is its base token's name (or `_bracketNumber`) followed by `Support` |
| JavaOptions.SupportKinds | src/main/java/org/theta4j/webapi/Options.java:73-97 | the scalar support tokens are exactly the range-typed ones; every other support token is an array token |
| JavaOptions.NoBracketNumberOption | src/main/java/org/theta4j/webapi/Options.java:73 | no option token is named `_bracketNumber`, although a support token is named after it |
| JavaOptions.NamesDistinct | src/main/java/org/theta4j/webapi/Options.java:30-101 | no two tokens of the Java table share a wire name |
| KotlinOptions.SupportNames | src/main/java/org/theta4j/webapi/Options.kt:86-131 | every support token's name is its base token's name (or `_bracketNumber`) followed by `Support` |
| KotlinOptions.SupportKinds | src/main/java/org/theta4j/webapi/Options.kt:86-131 | the scalar support tokens are exactly the eight listed ones (those made by `Option.create`, from `_bracketNumberSupport` to `_topBottomCorrectionRotationSupport`); the rest are array tokens |
| KotlinOptions.NoBracketNumberOption | src/main/java/org/theta4j/webapi/Options.kt:89 | no option token is named `_bracketNumber` |
| KotlinOptions.NamesDistinct | src/main/java/org/theta4j/webapi/Options.kt:25-131 | no two tokens of the Kotlin table share a wire name |
| KotlinOptions.IsoTokensShareType | src/main/java/org/theta4j/webapi/Options.kt:56-57 | ISO and ISO_AUTO_HIGH_LIMIT have different names and the same value type |
| Commands.StateNamesBijective | src/main/java/org/theta4j/osc/CommandState.java:30-40 | `done`, `inProgress` and `error` are exactly the names of a state, and each state's name reads back as that state |
| Commands.MemberSpec | src/main/java/org/theta4j/osc/CommandResponse.java:72-79 | an optional member is set exactly when its key is present with a value the flavour does not read as absent, and holds that value decoded; it reads as absent exactly when the key is missing or, in Java, holds JSON `null`; a failed decode reports the decoder's exception, with Java's `fromJson` turning IllegalStateException into a syntax error |
| Commands.DecodeState | src/main/java/org/theta4j/osc/CommandResponse.kt:49 | Kotlin accepts a state exactly when it is a known name; failures are serialization errors |
| Commands.DecodeEncodeError | src/main/java/org/theta4j/osc/CommandResponse.java:76-77 | an error object reads back from its wire form, under Gson and under kotlinx |
| Commands.KotlinStringMember | src/main/java/org/theta4j/osc/CommandResponse.kt:52 | a member of the Kotlin error object is null when missing or `null`, a quoted string's text, and a serialization error for any other value, since kotlinx is not lenient |
| Commands.ErrorDecodersAgree | src/main/java/org/theta4j/osc/CommandResponse.kt:52 | whatever kotlinx reads as an error, Gson reads the same; they agree on every object whose `code` and `message` are strings or null; a numeric or boolean `code` is read by Gson as its text and refused by kotlinx |
| Commands.DecodeProgress | src/main/java/org/theta4j/osc/CommandResponse.java:78-79 | a missing or null completion is null; a number is kept as its decimal; a string is read as `new BigDecimal` reads it, and text that is not a decimal raises a syntax error, not NumberFormatException; a boolean, array or object raises a syntax error |
| Commands.NonNumericCompletion | src/main/java/org/theta4j/osc/CommandResponse.java:78-79 | a reply whose progress completion is the string `"abc"` fails with a syntax error in both flavours |
| Commands.DecodeEncodeProgress | src/main/java/org/theta4j/osc/CommandResponse.java:78-79 | a progress object reads back from its wire form |
| Commands.Decode | src/main/java/org/theta4j/osc/CommandResponse.java:69-82 | a missing name raises NullPointerException; an id is only set from an `id` key; Kotlin never returns a reply without state |
| Commands.DecodeSpec | src/main/java/org/theta4j/osc/CommandResponse.kt:47-55 | each optional member is set exactly when its key is present, with the decoded value, and the result codec is kept for later polls |
| Commands.EncodeMembers | src/main/java/org/theta4j/osc/CommandResponse.kt:26-40 | each part of a reply is written under its key exactly when it is present |
| Json.ParseDecimal | src/main/java/org/theta4j/osc/CommandResponse.java:37 | `new BigDecimal(text)` for the `BigDecimal` completion: every failure is NumberFormatException; text without an exponent mark reads as a plain decimal; a result read with an exponent has an `int` scale |
| Json.ParseExponentForm | src/main/java/org/theta4j/osc/CommandResponse.java:37 | a plain decimal followed by `E`, a sign and digits reads as the same unscaled value with the exponent taken off the scale, and is refused when that scale leaves the `int` range |
| Json.OneEPlusOne | src/main/java/org/theta4j/osc/CommandResponse.java:37 | `"1E+1"` reads as unscaled 1 at scale -1 |
| Json.ParseDecimalOfPlainString | src/main/java/org/theta4j/osc/CommandResponse.java:37 | the plain text of a decimal with a non-negative scale reads back as that decimal, scale included |
| Json.ParseDecimalPlus | src/main/java/org/theta4j/osc/CommandResponse.java:37 | a leading `+` before unsigned text changes nothing |
| Json.NotDecimal | src/main/java/org/theta4j/osc/CommandResponse.java:37 | text without an exponent mark that starts with anything but a sign, a digit or a point is refused |
| Commands.DecodeEncode | src/main/java/org/theta4j/osc/CommandResponse.java:69-90 | decoding the wire form of a reply gives the reply back, given a round-tripping result codec |
| Commands.DoneReplyKeepsId | src/test/java/org/theta4j/osc/CommandResponseTest.java:28-49 | a `done` reply carrying an id keeps it, with no error or progress: state and members are not cross-checked |
| Client.ParseBody | src/main/java/org/theta4j/osc/OSCClient.java:391-393 | a body is read exactly when it is a JSON object; Java dereferences null for an empty body, and every other non-object (the literal `null` included, in both flavours) raises a serialization error |
| Client.Post | src/main/java/org/theta4j/osc/OSCClient.java:373-394 | every post sends one request and consumes one reply; 401 raises IOException; success exactly for a non-401 reply whose body is an object |
| Client.RequestBody | src/main/java/org/theta4j/osc/OSCClient.kt:90-95 | the request has `name`, and `parameters` exactly when there are parameters |
| Client.RaiseError | src/main/java/org/theta4j/osc/OSCClient.java:190-196 | a decoded reply is returned exactly when it has no error; its error is raised otherwise |
| Client.CallOutcome | src/main/java/org/theta4j/osc/OSCClient.kt:96-99 | on a readable reply the call returns the reply without error, raises the camera's error, or passes the decoding failure on |
| Client.Execute | src/main/java/org/theta4j/osc/OSCClient.java:184-197 | one request goes to the execute path, and a returned response never carries an error |
| Client.StatusBody | src/main/java/org/theta4j/osc/OSCClient.java:214-216 | the status body carries the previous id; without one Java omits the member while Kotlin writes null |
| Client.Status | src/main/java/org/theta4j/osc/OSCClient.java:210-225 | the poll sends the previous id, decodes with the previous result codec, and never returns an error |
| Client.Await | src/main/java/org/theta4j/osc/OSCClient.kt:112-119 | a response not in progress comes back unchanged with no request; a result is never in progress and has no error; only status polls are sent; the loop ends |
| Client.OptionSetCodecsRoundTrip | src/main/java/org/theta4j/osc/OptionSet.java:127-145 | both option-set codecs round-trip and never write null |
| Client.JavaGetOptions | src/main/java/org/theta4j/osc/OSCClient.java:289-313 | an empty collection raises IllegalArgumentException and a null element NullPointerException, before any request; otherwise the names go out in order |
| Client.KotlinGetOptions | src/main/java/org/theta4j/osc/OSCClient.kt:127-134 | an empty collection raises IllegalArgumentException before any request; otherwise the names go out in order |
| Client.JavaGetOption | src/main/java/org/theta4j/osc/OSCClient.java:239-242 | a null option raises NullPointerException before any request |
| Client.OptionsReplyDecodes | src/main/java/org/theta4j/osc/OSCClient.kt:133 | both versions decode an options reply to the same option set |
| Client.JavaResultsNotObject | src/main/java/org/theta4j/osc/OptionSet.java:127-129 | a Java reply whose `results` is neither an object nor null raises a syntax error, since `getAsJsonObject()` raises IllegalStateException inside `fromJson` |
| Client.JavaIsoListRejected | src/main/java/org/theta4j/osc/OptionSet.java:70 | an `iso` value `[100, 200]` makes Java's `get` raise a syntax error |
| Client.GetOptionFlavors | src/main/java/org/theta4j/osc/OSCClient.kt:121-123 | an option missing from the reply reads null in Java and raises NullPointerException in Kotlin; a present value decodes the same in both |
| Client.JavaSetOption | src/main/java/org/theta4j/osc/OSCClient.java:326-331 | a null option or value raises before any request; otherwise one request carries a set with exactly that entry |
| Client.KotlinSetOption | src/main/java/org/theta4j/osc/OSCClient.kt:136-151 | one request carries, under `options`, a set with exactly that entry |
| Client.SetOptionFlavorsAgree | src/main/java/org/theta4j/osc/OSCClient.java:326-331 | both versions send the same request, whose parameters hold exactly one option |
| Client.JavaCheckForUpdatesAsWritten | src/main/java/org/theta4j/osc/OSCClient.java:141-153 | a null fingerprint raises before any request; otherwise one request carries the fingerprint |
| Client.JavaCheckForUpdates | src/main/java/org/theta4j/osc/OSCClient.java:141-153 | the same request as written, with the state test applied only when the reply has a state |
| Client.KotlinCheckForUpdates | src/main/java/org/theta4j/osc/OSCClient.kt:82-87 | one request carries the fingerprint |
| Client.NormalUpdatesReply | src/main/java/org/theta4j/osc/OSCClient.java:148-152 | on a normal reply Java as written raises NullPointerException, while the corrected Java and Kotlin return the new fingerprint |
| Client.CheckForUpdatesAgreeWithState | src/main/java/org/theta4j/osc/OSCClient.java:148-150 | where the reply has a state, the corrected Java version behaves exactly as written |
| Client.ErrorUpdatesReply | src/main/java/org/theta4j/osc/OSCClient.kt:85 | Java raises on `state: error` with the top-level fields, Kotlin raises the `error` member itself |
| Client.KotlinLivePreview | src/main/java/org/theta4j/osc/OSCClient.kt:153-174 | a frame reader for the preview boundary exactly on 200; 401 raises IOException; other statuses raise something other than IOException |
| Client.LivePreviewErrorReply | src/main/java/org/theta4j/osc/OSCClient.kt:167-172 | a non-200 reply carrying an error object raises that error |
| CodeTables.IncreasingDistinct | src/main/java/org/theta4j/webapi/ISOSpeed.java:147-148 | a table whose keys strictly increase has pairwise distinct keys |
| CodeTables.ToMap | src/main/java/org/theta4j/webapi/ISOSpeed.java:147-148 | building the lookup map fails only with IllegalStateException, and never holds more entries than the table |
| CodeTables.ToMapSpec | src/main/java/org/theta4j/webapi/ISOSpeed.java:147-148 | the map is built exactly when the keys are distinct, and then sends every constant's key to that constant and holds nothing else |
| CodeTables.LookupSpec | src/main/java/org/theta4j/webapi/ISOSpeed.java:179-180 | over distinct keys a lookup succeeds, finds nothing exactly when no constant has the code, and otherwise finds the constant with that code |
| CodeTables.DuplicateKeysFail | src/main/java/org/theta4j/webapi/ExposureProgram.java:60-61 | a table where two constants share a key fails class initialisation |
| CodeTables.DeserializeIntSpec | src/main/java/org/theta4j/webapi/ISOSpeed.java:177-186 | decoding fails exactly when getAsInt does, and finds the constant with the code read, or null when none has it |
| CodeTables.IntRoundTrip | src/main/java/org/theta4j/webapi/ISOSpeed.java:177-186 | a constant's 32-bit code decodes back to that constant |
| CodeTables.DeserializeDecimalSpec | src/main/java/org/theta4j/webapi/Aperture.java:84-94 | decoding fails exactly when getAsBigDecimal does, and finds the constant with that exact decimal, scale included, or null |
| CodeTables.DecimalRoundTrip | src/main/java/org/theta4j/webapi/Aperture.java:84-94 | a constant's decimal decodes back to that constant |
| IsoSpeeds.CodesDistinct | src/main/java/org/theta4j/webapi/ISOSpeed.java:40-148 | the 22 codes strictly increase, so they are distinct and the map builds |
| IsoSpeeds.CodeRange | src/main/java/org/theta4j/webapi/ISOSpeed.java:40-145 | every code lies between AUTO's 0 and 6400 |
| IsoSpeeds.RoundTrip | src/main/java/org/theta4j/webapi/ISOSpeed.java:177-186 | serialising a constant and deserialising gives it back |
| IsoSpeeds.TextSpec | src/main/java/org/theta4j/webapi/ISOSpeed.java:168-175 | only AUTO prints `Auto`; every other constant prints a code that parses back |
| ExposurePrograms.CodesDistinct | src/main/java/org/theta4j/webapi/ExposureProgram.java:38-61 | the codes strictly increase, so they are distinct and the map builds |
| ExposurePrograms.RoundTrip | src/main/java/org/theta4j/webapi/ExposureProgram.java:73-83 | serialising a constant and deserialising gives it back |
| ExposurePrograms.GapDecodesToNull | src/main/java/org/theta4j/webapi/ExposureProgram.java:76 | the codes 5 to 8 decode to null |
| ApiVersions.CodesDistinct | src/main/java/org/theta4j/webapi/ApiVersion.java:39-47 | the two codes differ, so the map builds |
| ApiVersions.RoundTrip | src/main/java/org/theta4j/webapi/ApiVersion.java:67-77 | serialising a constant and deserialising gives it back |
| ApiVersions.KnownCodes | src/test/java/org/theta4j/webapi/ApiVersionTest.java:28-37 | v2.0 travels as 1 and v2.1 as 2, both ways, and they print as `v2.0` and `v2.1` |
| ApiVersions.UnknownCode | src/main/java/org/theta4j/webapi/ApiVersion.java:69-70 | any other code decodes to null |
| WlanChannels.CodesDistinct | src/main/java/org/theta4j/webapi/WlanChannel.java:36-42 | the channel numbers strictly increase, so they are distinct and the map builds |
| WlanChannels.RoundTrip | src/main/java/org/theta4j/webapi/WlanChannel.java:69-79 | serialising a constant and deserialising gives it back |
| WlanChannels.TextSpec | src/main/java/org/theta4j/webapi/WlanChannel.java:60-67 | only channel 0 prints `Not Specified`; every other channel prints a number that parses back |
| Apertures.ValuesDistinct | src/main/java/org/theta4j/webapi/Aperture.java:41-59 | the values strictly increase, so they are distinct and the map builds |
| Apertures.RoundTrip | src/main/java/org/theta4j/webapi/Aperture.java:84-94 | serialising a constant and deserialising gives it back |
| Apertures.TwoPointZero | src/test/java/org/theta4j/webapi/ApertureTest.java:28-35 | `2.0` decodes to F2_0 and F2_0 encodes as `2.0` |
| Apertures.OtherScalesMiss | src/main/java/org/theta4j/webapi/Aperture.java:86-87 | the same number at another scale, `2` or `2.00`, decodes to null |
| Apertures.TextSpec | src/main/java/org/theta4j/webapi/Aperture.java:78-82 | a constant prints as `F` and a plain decimal that parses back to its exact value |
| ExposureCompensations.ValuesDistinct | src/main/java/org/theta4j/webapi/ExposureCompensation.java:41-106 | the 13 values strictly increase, so they are distinct and the map builds |
| ExposureCompensations.RoundTrip | src/main/java/org/theta4j/webapi/ExposureCompensation.java:129-139 | serialising a constant and deserialising gives it back |
| ExposureCompensations.TextSpec | src/main/java/org/theta4j/webapi/ExposureCompensation.java:124-127 | the text starts with `+` exactly for a positive step and `-` exactly for a negative one, ends in `EV`, and the rest parses back to the step |
| ExposureCompensations.TextExamples | src/main/java/org/theta4j/webapi/ExposureCompensation.java:121-127 | zero prints unsigned, a positive step with `+`, and -2.0 as `-2.0EV` |
| ShutterSpeeds.TableFacts | src/main/java/org/theta4j/webapi/ShutterSpeed.java:41-349 | the 62 times strictly increase, so the map builds, and each time is its fraction cut after eight decimal places |
| ShutterSpeeds.RoundTrip | src/main/java/org/theta4j/webapi/ShutterSpeed.java:399-409 | serialising a constant and deserialising gives it back |
| ShutterSpeeds.TestTimes | src/test/java/org/theta4j/webapi/AutoBracketProgramTest.java:36-66 | 0.001, 0.1 and 1 decode to 1/1000 s, 1/10 s and 1 s, while 1.0 matches no constant |
| ShutterSpeedTexts.AsWrittenWholeSeconds | src/main/java/org/theta4j/webapi/ShutterSpeed.java:396 | the code prints 1 s as `1/1s` and 15 s as `15/1s` |
| ShutterSpeedTexts.TextExamples | src/main/java/org/theta4j/webapi/ShutterSpeed.java:385-388 | the documented text gives `Auto`, `1/25000s`, `1/10s`, `1s` and `15s` |
| ShutterSpeedTexts.TextVersusAsWritten | src/main/java/org/theta4j/webapi/ShutterSpeed.java:385-397 | the documented and the coded text differ exactly on whole seconds other than AUTO, and there only by `/1` |
| JavaAutoBracket.NewParameter | src/main/java/org/theta4j/webapi/AutoBracketProgram.java:49-53 | a parameter is made exactly when iso and shutter speed are non-null, and keeps all three fields |
| JavaAutoBracket.NewProgram | src/main/java/org/theta4j/webapi/AutoBracketProgram.java:127-137 | null array, empty array and null element raise in that order; a program made has `number` equal to the parameter count |
| JavaAutoBracket.CallerStoreShows | src/main/java/org/theta4j/webapi/AutoBracketProgram.java:131 | a store into the caller's array shows through getParameters while `number` stays, even a null the constructor had refused |
| JavaAutoBracket.Add | src/main/java/org/theta4j/webapi/AutoBracketProgram.java:202-206 | a null parameter raises NullPointerException; otherwise it is appended |
| JavaAutoBracket.AddFields | src/main/java/org/theta4j/webapi/AutoBracketProgram.java:218-221 | adding by fields appends a new parameter or fails as the parameter constructor does |
| JavaAutoBracket.Build | src/main/java/org/theta4j/webapi/AutoBracketProgram.java:227-229 | building succeeds exactly for a non-empty builder, and the program wraps a new array holding the builder's list |
| JavaAutoBracket.BuildSpec | src/main/java/org/theta4j/webapi/AutoBracketProgram.java:202-229 | a built program holds the builder's parameters in insertion order, counted by `number`, and no store into an older array changes it |
| JavaAutoBracket.EmptyBuilderFails | src/main/java/org/theta4j/webapi/AutoBracketProgram.java:227-229 | an empty builder raises IllegalArgumentException |
| JavaAutoBracket.Equals | src/main/java/org/theta4j/webapi/AutoBracketProgram.java:155-165 | `equals` raises NullPointerException exactly when the numbers agree and this program's list is null; it holds exactly when the numbers agree and the present lists are equal, and is false exactly when the numbers differ or the present lists differ |
| JavaAutoBracket.EqualsConsistent | src/main/java/org/theta4j/webapi/AutoBracketProgram.java:158-165 | between constructed programs equals never throws and holds exactly when the parameter lists are equal |
| JavaAutoBracket.IntFieldRoundTrip | src/main/java/org/theta4j/webapi/AutoBracketProgram.java:36-39 | every int field reads back from the number written for it |
| JavaAutoBracket.IntField | src/main/java/org/theta4j/webapi/AutoBracketProgram.java:36-39 | a missing or null member leaves 0; a number reads as `getAsInt` gives it, truncated and wrapped to 32 bits; the read fails exactly on a boolean, an array, an object or a string that is not an int |
| JavaAutoBracket.DecodeParameter | src/main/java/org/theta4j/webapi/AutoBracketProgram.java:33-39 | JSON null gives null and any other non-object raises a syntax error; an IllegalStateException from the `iso` adapter comes out as a syntax error, and no read raises IllegalStateException |
| JavaAutoBracket.IsoListRejected | src/main/java/org/theta4j/webapi/AutoBracketProgram.java:34 | `{"iso": [1, 2]}` raises a syntax error, not the adapter's IllegalStateException |
| JavaAutoBracket.ParameterRoundTrip | src/main/java/org/theta4j/webapi/AutoBracketProgram.java:33-53 | a parameter made from table constants reads back from its JSON |
| JavaAutoBracket.RoundTrip | src/main/java/org/theta4j/webapi/AutoBracketProgram.java:114-137 | a constructed program reads back as an equal program with a fresh list of the same parameters |
| JavaAutoBracket.DecodeSkipsChecks | src/main/java/org/theta4j/webapi/AutoBracketProgram.java:127-137 | reading `{"_bracketNumber": 5, "_bracketParameters": []}` bypasses the constructor and gives number 5 with no parameters |
| JavaAutoBracket.TestSerialize | src/test/java/org/theta4j/webapi/AutoBracketProgramTest.java:70-74 | the test program serialises to the test's JSON |
| JavaAutoBracket.TestDecode | src/test/java/org/theta4j/webapi/AutoBracketProgramTest.java:49-68 | the test's JSON reads as number 3 and the three shots in order |
| KotlinAutoBracket.NewProgram | src/main/java/org/theta4j/webapi/AutoBracketProgram.kt:33-35 | a program is made exactly from a non-empty list, which it keeps |
| KotlinAutoBracket.NewProgramOf | src/main/java/org/theta4j/webapi/AutoBracketProgram.kt:37 | the vararg constructor never fails, and its first argument comes first |
| KotlinAutoBracket.Serialize | src/main/java/org/theta4j/webapi/AutoBracketProgram.kt:71-82 | the count written is the list's size, and the parameters follow in order |
| KotlinAutoBracket.ParameterMembers | src/main/java/org/theta4j/webapi/AutoBracketProgram.kt:39-55 | each of the seven declared members is written exactly when its field is non-null, with that field's value, and nothing else is written |
| KotlinAutoBracket.ParameterRoundTrip | src/main/java/org/theta4j/webapi/AutoBracketProgram.kt:39-55 | every parameter with Int-range integers reads back from what its serializer writes, all seven fields included |
| KotlinAutoBracket.NameMember | src/main/java/org/theta4j/webapi/AutoBracketProgram.kt:48-54 | a missing or null enum member gives null; a string, number or boolean is read as its text; only an array or an object is rejected |
| KotlinAutoBracket.DecodeParameter | src/main/java/org/theta4j/webapi/AutoBracketProgram.kt:39-55 | a non-object is rejected, and an undeclared member is rejected exactly when unknown keys are not ignored; every failure is a serialization error |
| KotlinAutoBracket.UnknownKeys | src/main/java/org/theta4j/osc/OptionSet.kt:32-42 | with unknown keys ignored, an object reads as its declared members alone; the default Json agrees with that exactly when no undeclared member is present, and fails otherwise |
| KotlinAutoBracket.UndeclaredMemberSkipped | src/main/java/org/theta4j/osc/OptionSet.kt:32-37 | `{"iso": 100, "_filter": "off"}` reads as iso 100 under the option set's format and is rejected by the default Json |
| KotlinAutoBracket.NumericName | src/main/java/org/theta4j/webapi/AutoBracketProgram.kt:48 | `{"exposureProgram": 2}` reads the enum name from the number's text |
| KotlinAutoBracket.IsoAndApertureDecode | src/main/java/org/theta4j/webapi/AutoBracketProgram.kt:40-50 | a parameter carrying `iso` and `aperture` decodes to those two fields with the rest null |
| KotlinAutoBracket.Deserialize | src/main/java/org/theta4j/webapi/AutoBracketProgram.kt:64-69 | under either setting of `ignoreUnknownKeys` (that of `decoder.json`): a non-object, a non-array or an empty array raises IllegalArgumentException, a missing array NullPointerException, and a result is always a non-empty program |
| KotlinAutoBracket.RoundTrip | src/main/java/org/theta4j/webapi/AutoBracketProgram.kt:64-82 | every program with Int-range integers reads back from what serialize writes, whether or not unknown keys are ignored |
| KotlinAutoBracket.IgnoresNumber | src/main/java/org/theta4j/webapi/AutoBracketProgram.kt:66 | reading never depends on `_bracketNumber`, present or not |
| KotlinAutoBracket.TestAsWrittenFails | src/test/java/org/theta4j/webapi/AutoBracketProgramTest.kt:24-51 | with the key `colorTemperature` the encode test sees a different object and the decode test raises |
| KotlinAutoBracket.TestPasses | src/main/java/org/theta4j/webapi/AutoBracketProgram.kt:45-46 | with the key `_colorTemperature` both directions of the test hold |
| AccessPoints.NewBuilder | src/main/java/org/theta4j/webapi/AccessPoint.java:244-247 | a null SSID raises NullPointerException; otherwise security is NONE and every other field null |
| AccessPoints.SetSecurity | src/main/java/org/theta4j/webapi/AccessPoint.java:258-265 | a non-NONE security without a password raises before any change; otherwise both fields are overwritten and nothing else changes |
| AccessPoints.SetIpAddress | src/main/java/org/theta4j/webapi/AccessPoint.java:302-307 | the allocation becomes STATIC first and the addresses are stored in turn, so a null argument leaves the earlier ones updated |
| AccessPoints.IpAddressPartialUpdate | src/main/java/org/theta4j/webapi/AccessPoint.java:302-307 | a call with a missing subnet mask still leaves STATIC and the new IP address in place |
| AccessPoints.NoSecurityClearsPassword | src/main/java/org/theta4j/webapi/AccessPoint.java:263-264 | `security(NONE, null)` clears an earlier password |
| AccessPoints.BuildFaithful | src/main/java/org/theta4j/webapi/AccessPoint.java:314-326 | the built access point's fields read as the builder's, and two builders build equal points exactly when they are equal |
| AccessPoints.IsStealth | src/main/java/org/theta4j/webapi/AccessPoint.java:119-121 | unboxing a null stealth flag raises NullPointerException |
| AccessPoints.ConnectionPriorityAsWritten | src/main/java/org/theta4j/webapi/AccessPoint.java:134-136 | the priority getter as written raises on an unset field |
| AccessPoints.ConnectionPriority | src/main/java/org/theta4j/webapi/AccessPoint.java:131-136 | the documented priority getter returns the field, or 1 when unset |
| AccessPoints.IpAddressAllocation | src/main/java/org/theta4j/webapi/AccessPoint.java:138-144 | the documented allocation getter is never null, DYNAMIC when unset |
| AccessPoints.MinimalGettersAsWritten | src/main/java/org/theta4j/webapi/AccessPoint.java:131-144 | on the minimal access point the priority getter raises and the allocation getter returns null |
| AccessPoints.DocumentedGetters | src/main/java/org/theta4j/webapi/AccessPoint.java:131-144 | the documented getters give 1 and DYNAMIC on the minimal access point and agree with the code wherever the field is set |
| AccessPoints.Equals | src/main/java/org/theta4j/webapi/AccessPoint.java:173-187 | equals raises only on this point's null SSID |
| AccessPoints.EqualsIsEquality | src/main/java/org/theta4j/webapi/AccessPoint.java:173-187 | with an SSID present, equals is exactly equality of all nine fields, and it is symmetric between built points |
| AccessPoints.Deserialize | src/main/java/org/theta4j/webapi/AccessPoint.java:67-84 | JSON `null` reads as null and nothing else does; any other non-object raises a syntax error; an object's `ssid` string is kept; every failure is a syntax error |
| AccessPoints.RoundTrip | src/main/java/org/theta4j/webapi/AccessPoint.java:67-84 | every access point with an int-range priority reads back from its JSON as that non-null point |
| AccessPoints.IntegerField | src/main/java/org/theta4j/webapi/AccessPoint.java:76 | a missing or null member gives null; a number reads as `getAsInt` gives it, truncated and wrapped to 32 bits; the read fails exactly on a boolean, an array, an object or a string that is not an int |
| AccessPoints.TestFull | src/test/java/org/theta4j/webapi/AccessPointTest.java:33-70 | the full access point serialises to the full fixture, and the fixture reads back as an equal point |
| AccessPoints.TestMin | src/test/java/org/theta4j/webapi/AccessPointTest.java:52-82 | the minimal access point is `{ssid, security: none}` on the wire, both ways |
| ConvertVideoFormats.Component | src/main/java/org/theta4j/webapi/ConvertVideoFormats.kt:53-55 | a size component is -1 or a 32-bit integer, and -1 when there is no such piece |
| ConvertVideoFormats.RoundTrip | src/main/java/org/theta4j/webapi/ConvertVideoFormats.kt:53-55 | `"WxH"` for any 32-bit W and H reads back as width W and height H |
| ConvertVideoFormats.PiecesRead | src/main/java/org/theta4j/webapi/ConvertVideoFormats.kt:53-55 | only the first two pieces are read, each as an integer or -1 on its own |
| ConvertVideoFormats.NoSeparator | src/main/java/org/theta4j/webapi/ConvertVideoFormats.kt:55 | a size without `x` has height -1 and its whole text as width |
| ConvertVideoFormats.Constants | src/main/java/org/theta4j/webapi/ConvertVideoFormats.kt:48-50 | the two constants read as 3840 by 1920 and 1920 by 960 |

## Left out

- HTTP and authentication: OkHttp clients, digest authentication, logging and coroutine dispatch are not modelled. The transport is a scripted list of replies, each a status and a parsed body.
- `delay` in Kotlin's `await` is not modelled; the loop is bounded by the script.
- Gson and kotlinx internals are not modelled; reflective codecs are written out per type. JSON objects are maps, so member order is not modelled. JSON is compared as values, not as text.
- Gson's integer fields are read as on the tree path the option set uses (`fromJson(JsonElement, …)`): a number is truncated toward zero and keeps its low 32 bits. Gson's streaming path, used when the unit tests decode a string, rejects a fractional or out-of-range number instead; it is not modelled. Kotlin's quoted-number leniency is not modelled.
- Floating point is not modelled: Kotlin's `Double`-backed types (`ShutterSpeed.kt`, `Aperture.kt`, `ExposureCompensation.kt`) and `Progress.completion`. The Kotlin AutoBracket parameter's `Double`-typed fields are JSON numbers.
- KotlinAutoBracket.DecodeParameter: `ExposureProgram.kt` and `WhiteBalance.kt` are not part of this model, so the `exposureProgram` and `whiteBalance` members accept the text of any string, number or boolean as a constant's name, where kotlinx rejects a name the enum does not declare. `aperture`, `exposureCompensation` and `shutterSpeed` accept any JSON number, held as its decimal rather than as a `Double`.
- Commands.DecodeError and Commands.KotlinDecodeError: `OSCException.kt` is not part of this model. The Kotlin error object is taken to have the same two optional string members, `code` and `message`, as `OSCException.java`. kotlinx reads them without `isLenient`, so a number or boolean there is refused, where Gson takes its text.
- Json.ParseDecimal: accepts only the ASCII digits, where `new BigDecimal(String)` also takes other Unicode decimal digits. The exponent is read at any length and only the resulting scale is checked against the `int` range; `BigDecimal` also refuses an exponent of more than ten significant digits, which makes no difference unless the mantissa has billions of fraction digits.
- `CommandState.kt`, `GetOptions.kt` and `SetOptions.kt` are not part of this model. Their wire names are taken to match the Java ones: `done`/`inProgress`/`error`, `optionNames` and `options`.
- Object identity is not modelled: `equals` is modelled for two distinct objects. `hashCode` and `toString` of `AutoBracketProgram`, `Parameter` and `AccessPoint` are not modelled; they are not used by the logic.
- `AccessPoint.kt` is not part of this model; it is a plain serializable record.
- The Void/Unit result codec and the `Theta` façades are not modelled; they forward to the client.
- An exception during enum class initialisation surfaces in Java as `ExceptionInInitializerError`; it is modelled as the IllegalState failure `toMap` raises.
- ExposureCompensations.TextExamples: proves the code's `-2.0EV`; the documentation's `-2.0` example, which lacks the suffix, is not modelled as a separate text.
- Case folding is ASCII only, for header names and `Boolean.parseBoolean`.
- Text decoding is ASCII only. Each byte of a multipart line becomes one character, which agrees with UTF-8 decoding exactly on ASCII bytes. A boundary or header holding non-ASCII text, or a line of invalid UTF-8 that the JVM decodes to U+FFFD, is read differently by the model.
- Numbers.ParseInt: accepts only the ASCII digits `0`-`9`, while `Integer.parseInt` and `toIntOrNull` also accept the other Unicode decimal digits. It is used for `Content-Length`, numeric strings and the `ConvertVideoFormats` size components.
- commons-io `BoundedInputStream` and okhttp `Headers` are libraries. Their behaviour is modelled as assumed here:
  - a read returns what the limit and the data leave;
  - a negative limit means no limit;
  - lookup is case-insensitive and returns the last match;
  - `add` splits at the first colon and checks the name and value.
- The other `ConvertVideoFormats` value classes are not modelled; they hold strings with no logic. The Size codec is not modelled either.
- Client.JavaGetOption: states only the null-token path; the rest is `getOptions` followed by `OptionSet.get`, which Client.GetOptionFlavors states on a concrete reply.
- Client.KotlinCheckForUpdates: states only the request sent; the outcomes are stated by Client.NormalUpdatesReply and Client.ErrorUpdatesReply.
- Kotlin's `OptionSet` is a data class; set equality is map equality by construction of the model.

## Findings

| source | as written | input that shows it | evidently intended | confidence | as-written member | corrected member |
|---|---|---|---|---|---|---|
| src/main/java/org/theta4j/osc/MJpegInputStream.java:89-96 | `readLine` treats the -1 end-of-stream value as a data byte and keeps reading | a stream that ends inside a line, e.g. the bytes `--b` with no LF | end of stream raises an exception | high; not executed | MJpeg.TruncatedLineHangs | MJpeg.CheckedAgreesUnlessHang |
| src/main/java/org/theta4j/osc/OptionSet.java:120-122 | `build()` hands the builder's own map to the option set | build from an empty builder, then `put(ISO, 100)` on the builder: the built set reads 100 | the built set is unaffected by later puts | high; not executed | OptionSets.AliasedSetSeesLaterPut | OptionSets.CopyingSetIsolated |
| src/main/java/org/theta4j/osc/OptionSet.kt:63-66 | `build()` wraps the builder's mutable map, and the block of `buildOptionSet` may call it before a later `put` | `buildOptionSet { val early = build(); put(ISO, Iso(100)) }`: `early`, empty when built, reads ISO 100 | a built set is unaffected by later puts | medium; not executed | OptionSets.KotlinAliasedSetSeesLaterPut | OptionSets.KotlinCopyingSetIsolated |
| src/main/java/org/theta4j/osc/OSCClient.java:148 | `response.get("state").getAsString()` runs on every reply | the normal reply `{"stateFingerprint": "FIG_0002", "throttleTimeout": 60}`, which has no `state`, raises NullPointerException | the state is tested only when present, and the fingerprint is returned | medium; not executed | Client.JavaCheckForUpdatesAsWritten | Client.NormalUpdatesReply |
| src/main/java/org/theta4j/webapi/ShutterSpeed.java:396 | numerator, `/`, denominator and `s` for every constant but AUTO | `_1` prints `1/1s` and `_15` prints `15/1s` | `1s` and `15s`, as documented at line 387 | high; not executed | ShutterSpeedTexts.AsWrittenWholeSeconds | ShutterSpeedTexts.TextVersusAsWritten |
| src/test/java/org/theta4j/webapi/AutoBracketProgramTest.kt:37 | the fixture uses the key `colorTemperature` | the program with Iso.AUTO, ShutterSpeed.AUTO, 5500 encodes with `_colorTemperature`, and decoding the fixture meets an unknown key | the fixture key is `_colorTemperature` | high; not executed | KotlinAutoBracket.TestAsWrittenFails | KotlinAutoBracket.TestPasses |
| src/main/java/org/theta4j/webapi/AccessPoint.java:131-144 | the getters return the raw fields | `new Builder("min_ssid").build()`: `getConnectionPriority()` raises NullPointerException and the `@Nonnull` `getIpAddressAllocation()` returns null | 1 and DYNAMIC, the documented defaults | medium; not executed | AccessPoints.MinimalGettersAsWritten | AccessPoints.DocumentedGetters |

Two more differences are stated as lemmas rather than findings, since the code is consistent with its callers:
- OptionSets.KotlinSerializerFlat: the Kotlin option-set codec disagrees with its unit test. The client reads the `options` wrapper itself.
- MJpeg.NegativeLengthIsUnbounded: a negative `Content-Length` is accepted.
