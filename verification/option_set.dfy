/**
 * The typed option bag, `OptionSet`: a map from an option's wire name to its JSON value, read and
 * written through typed tokens (`Option<T>` and its subtype `ArrayOption<T>`). A token's codec
 * stands for the Gson type adapter or kotlinx serializer of its declared value type.
 *
 * Java wraps the map as `{"options": {...}}` on the wire; Kotlin writes the map itself and leaves
 * the `options` member to the reply record of `camera.getOptions`.
 */
module OptionSets {
  import opened Wrappers
  import opened Numbers
  import opened Json

  /** `Option.SUPPORT`, the suffix of the name of an option's support list. */
  const Support: string := "Support"

  /** The member of the Java wire form that holds the map. */
  const OptionsKey: string := "options"

  /**
   * An option token: the wire name and the codec of the declared value type. An `ArrayOption` is
   * the same record read and written through the array overloads.
   */
  datatype Token<!T> = Token(name: string, codec: Codec<T>)

  /** `Option.create` and `ArrayOption.create`: a null name or type is rejected. */
  function CreateToken<T>(name: Option<string>, codec: Option<Codec<T>>): (r: Result<Token<T>>)
    ensures r.Success? <==> name.Some? && codec.Some?
    ensures r.Failure? ==> r.error == NullPointer
    ensures r.Success? ==> r.value == Token(name.value, codec.value)
  {
    if name.None? || codec.None? then Failure(NullPointer) else Success(Token(name.value, codec.value))
  }

  /** The option set. Structural equality is the `equals` of the Kotlin data class. */
  datatype OptionSet = OptionSet(data: map<string, Json>)

  const Empty: OptionSet := OptionSet(map[])

  // ---------------------------------------------------------------------------
  // Element-wise encoding and decoding of arrays
  // ---------------------------------------------------------------------------

  function EncodeAll<T>(c: Codec<T>, vs: seq<T>): (r: seq<Json>)
    ensures |r| == |vs|
  {
    if |vs| == 0 then [] else [c.encode(vs[0])] + EncodeAll(c, vs[1..])
  }

  /** Each value is encoded at its own position. */
  lemma {:induction false} EncodeAllSpec<T>(c: Codec<T>, vs: seq<T>)
    ensures forall i :: 0 <= i < |vs| ==> EncodeAll(c, vs)[i] == c.encode(vs[i])
  {
    if |vs| > 0 {
      EncodeAllSpec(c, vs[1..]);
    }
  }

  /** kotlinx's element-wise decoding: every element through the codec, in order; the first failure is raised. */
  function DecodeAll<T>(c: Codec<T>, items: seq<Json>): (r: Result<seq<T>>)
    ensures r.Success? ==> |r.value| == |items|
  {
    if |items| == 0 then Success([])
    else
      var head :- c.decode(items[0]);
      var tail :- DecodeAll(c, items[1..]);
      Success([head] + tail)
  }

  /** Decoding an array succeeds exactly when every element decodes, and then holds each element's value in place. */
  lemma {:induction false} DecodeAllSpec<T>(c: Codec<T>, items: seq<Json>)
    ensures DecodeAll(c, items).Success? <==> forall i :: 0 <= i < |items| ==> c.decode(items[i]).Success?
    ensures DecodeAll(c, items).Success? ==>
      forall i :: 0 <= i < |items| ==> DecodeAll(c, items).value[i] == c.decode(items[i]).value
  {
    if |items| > 0 {
      DecodeAllSpec(c, items[1..]);
      assert forall i :: 1 <= i < |items| ==> items[i] == items[1..][i - 1];
    }
  }

  /** A codec that round-trips single values round-trips arrays of them. */
  lemma {:induction false} DecodeEncodeAll<T(!new)>(c: Codec<T>, vs: seq<T>)
    requires RoundTrips(c)
    ensures DecodeAll(c, EncodeAll(c, vs)) == Success(vs)
  {
    if |vs| > 0 {
      DecodeEncodeAll(c, vs[1..]);
      assert c.decode(c.encode(vs[0])) == Success(vs[0]);
      assert EncodeAll(c, vs)[1..] == EncodeAll(c, vs[1..]);
      assert [vs[0]] + vs[1..] == vs;
    }
  }

  /** Each value wrapped as present. */
  function Somes<T>(vs: seq<T>): (r: seq<Option<T>>)
    ensures |r| == |vs|
  {
    if |vs| == 0 then [] else [Some(vs[0])] + Somes(vs[1..])
  }

  /** Gson's element-wise decoding, `fromJson` per element: a JSON `null` element becomes a null list entry. */
  function GsonDecodeAll<T>(c: Codec<T>, items: seq<Json>): (r: Result<seq<Option<T>>>)
    ensures r.Success? ==> |r.value| == |items|
  {
    if |items| == 0 then Success([])
    else
      var head :- GsonDecode(c, items[0]);
      var tail :- GsonDecodeAll(c, items[1..]);
      Success([head] + tail)
  }

  /** Gson decodes what the codec encoded, every element present. */
  lemma {:induction false} GsonDecodeEncodeAll<T(!new)>(c: Codec<T>, vs: seq<T>)
    requires RoundTrips(c) && NeverNull(c)
    ensures GsonDecodeAll(c, EncodeAll(c, vs)) == Success(Somes(vs))
  {
    if |vs| > 0 {
      GsonDecodeEncodeAll(c, vs[1..]);
      assert c.decode(c.encode(vs[0])) == Success(vs[0]);
      assert c.encode(vs[0]) != JNull;
      assert EncodeAll(c, vs)[1..] == EncodeAll(c, vs[1..]);
    }
  }

  /** A JSON `null` element decodes to a null entry without consulting the codec. */
  lemma GsonNullElement<T>(c: Codec<T>, before: seq<Json>, after: seq<Json>)
    requires GsonDecodeAll(c, before + [JNull] + after).Success?
    ensures GsonDecodeAll(c, before + [JNull] + after).value[|before|] == None
  {
    assert before + [JNull] + after == before + ([JNull] + after);
    GsonDecodeAllAt(c, before, [JNull] + after);
  }

  /** Decoding a concatenation decodes the two halves. */
  lemma {:induction false} GsonDecodeAllAt<T>(c: Codec<T>, a: seq<Json>, b: seq<Json>)
    requires GsonDecodeAll(c, a + b).Success?
    ensures GsonDecodeAll(c, a).Success? && GsonDecodeAll(c, b).Success?
    ensures GsonDecodeAll(c, a + b).value == GsonDecodeAll(c, a).value + GsonDecodeAll(c, b).value
  {
    if |a| > 0 {
      assert (a + b)[1..] == a[1..] + b;
      GsonDecodeAllAt(c, a[1..], b);
    } else {
      assert a + b == b;
    }
  }

  // ---------------------------------------------------------------------------
  // Java: get, and the builder's put
  // ---------------------------------------------------------------------------

  /**
   * `OptionSet.get(Option)` in Java: a null token is rejected; an absent name gives null; a
   * stored value goes through `Gson.fromJson` with the token's declared type.
   */
  function JavaGet<T>(s: OptionSet, option: Option<Token<T>>): (r: Result<Option<T>>)
    ensures option.None? ==> r == Failure(NullPointer)
    ensures option.Some? && option.value.name !in s.data ==> r == Success(None)
    ensures option.Some? && option.value.name in s.data ==> r == GsonDecode(option.value.codec, s.data[option.value.name])
  {
    if option.None? then Failure(NullPointer)
    else if option.value.name !in s.data then Success(None)
    else GsonDecode(option.value.codec, s.data[option.value.name])
  }

  /**
   * `OptionSet.get(ArrayOption)` in Java: the stored value must be a JSON array
   * (`getAsJsonArray` raises `IllegalStateException` otherwise, JSON `null` included), and each
   * element is decoded in order.
   */
  function JavaGetArray<T>(s: OptionSet, option: Option<Token<T>>): (r: Result<Option<seq<Option<T>>>>)
    ensures option.None? ==> r == Failure(NullPointer)
    ensures option.Some? && option.value.name !in s.data ==> r == Success(None)
    ensures option.Some? && option.value.name in s.data && !s.data[option.value.name].JArr? ==> r == Failure(IllegalState)
    ensures r.Success? && r.value.Some? ==>
      option.Some? && option.value.name in s.data && |r.value.value| == |s.data[option.value.name].items|
  {
    if option.None? then Failure(NullPointer)
    else if option.value.name !in s.data then Success(None)
    else
      var value := s.data[option.value.name];
      if !value.JArr? then Failure(IllegalState)
      else
        var list :- GsonDecodeAll(option.value.codec, value.items);
        Success(Some(list))
  }

  /**
   * `Builder.put` in Java on the builder's map: null token or value is rejected, otherwise the
   * encoded value is stored under the token's name, replacing what was there.
   */
  function JavaPut<T>(m: map<string, Json>, option: Option<Token<T>>, value: Option<T>): (r: Result<map<string, Json>>)
    ensures r.Failure? <==> option.None? || value.None?
    ensures r.Failure? ==> r.error == NullPointer
    ensures r.Success? ==> r.value.Keys == m.Keys + {option.value.name}
  {
    if option.None? || value.None? then Failure(NullPointer)
    else Success(m[option.value.name := option.value.codec.encode(value.value)])
  }

  /**
   * After a Java put, the token reads back the value, and every token with another name reads
   * what it read before.
   */
  lemma JavaGetAfterPut<T(!new), U>(m: map<string, Json>, t: Token<T>, v: T, other: Token<U>)
    requires RoundTrips(t.codec) && NeverNull(t.codec)
    ensures JavaPut(m, Some(t), Some(v)).Success?
    ensures JavaGet(OptionSet(JavaPut(m, Some(t), Some(v)).value), Some(t)) == Success(Some(v))
    ensures other.name != t.name ==>
      JavaGet(OptionSet(JavaPut(m, Some(t), Some(v)).value), Some(other)) == JavaGet(OptionSet(m), Some(other))
  {
    assert t.codec.decode(t.codec.encode(v)) == Success(v);
    assert t.codec.encode(v) != JNull;
  }

  /** A second Java put under the same name replaces the first. */
  lemma JavaPutOverwrites<T, U>(m: map<string, Json>, t: Token<T>, v: T, u: Token<U>, w: U)
    requires t.name == u.name
    ensures JavaPut(m, Some(t), Some(v)).Success?
    ensures JavaPut(JavaPut(m, Some(t), Some(v)).value, Some(u), Some(w)) == JavaPut(m, Some(u), Some(w))
  {
    assert m[t.name := t.codec.encode(v)][u.name := u.codec.encode(w)] == m[u.name := u.codec.encode(w)];
  }

  // ---------------------------------------------------------------------------
  // Java: builders and option sets share their map
  // ---------------------------------------------------------------------------

  /** The `HashMap`s that Java builders and option sets point to; a reference is an index. */
  datatype Heap = Heap(maps: seq<map<string, Json>>)

  datatype Ref = Ref(index: nat)

  predicate Allocated(h: Heap, r: Ref) {
    r.index < |h.maps|
  }

  /** `new OptionSet.Builder()`: a fresh empty map; no other map changes. */
  function NewBuilder(h: Heap): (out: (Heap, Ref))
    ensures Allocated(out.0, out.1) && out.1.index == |h.maps|
    ensures out.0.maps[out.1.index] == map[]
    ensures out.0.maps[..|h.maps|] == h.maps
  {
    (Heap(h.maps + [map[]]), Ref(|h.maps|))
  }

  /** `Builder.put` on the builder's map in the heap. */
  function BuilderPut<T>(h: Heap, b: Ref, option: Option<Token<T>>, value: Option<T>): (r: Result<Heap>)
    requires Allocated(h, b)
    ensures r.Success? <==> JavaPut(h.maps[b.index], option, value).Success?
    ensures r.Failure? ==> r.error == NullPointer
    ensures r.Success? ==> |r.value.maps| == |h.maps|
  {
    var m :- JavaPut(h.maps[b.index], option, value);
    Success(Heap(h.maps[b.index := m]))
  }

  /** A put through one reference changes only the map it points to. */
  lemma BuilderPutFrame<T>(h: Heap, b: Ref, option: Option<Token<T>>, value: Option<T>, r: Ref)
    requires Allocated(h, b) && Allocated(h, r) && BuilderPut(h, b, option, value).Success?
    ensures r.index != b.index ==> BuilderPut(h, b, option, value).value.maps[r.index] == h.maps[r.index]
    ensures BuilderPut(h, b, option, value).value.maps[b.index] == JavaPut(h.maps[b.index], option, value).value
  {
  }

  /** The option set a reference points to, as `get` reads it. */
  function View(h: Heap, s: Ref): (v: OptionSet)
    requires Allocated(h, s)
  {
    OptionSet(h.maps[s.index])
  }

  /** `Builder.build()` as written: `new OptionSet(map)` hands over the builder's own map. */
  function BuildAliased(h: Heap, b: Ref): (s: Ref)
    requires Allocated(h, b)
    ensures Allocated(h, s) && View(h, s) == OptionSet(h.maps[b.index])
  {
    b
  }

  /** `Builder.build()` with a copy of the map, as an immutable option set needs. */
  function BuildCopying(h: Heap, b: Ref): (out: (Heap, Ref))
    requires Allocated(h, b)
    ensures Allocated(out.0, b) && Allocated(out.0, out.1) && out.1.index != b.index
    ensures View(out.0, out.1) == OptionSet(h.maps[b.index])
    ensures |out.0.maps| == |h.maps| + 1
    ensures out.0.maps[..|h.maps|] == h.maps
  {
    (Heap(h.maps + [h.maps[b.index]]), Ref(|h.maps|))
  }

  /**
   * With the aliasing `build()`, a put on the builder after `build()` shows in the option set
   * already built: a set built from an empty builder reads a value put afterwards.
   */
  lemma AliasedSetSeesLaterPut<T(!new)>(h: Heap, t: Token<T>, v: T)
    requires RoundTrips(t.codec) && NeverNull(t.codec)
    ensures var (h1, b) := NewBuilder(h);
      var s := BuildAliased(h1, b);
      && JavaGet(View(h1, s), Some(t)) == Success(None)
      && BuilderPut(h1, b, Some(t), Some(v)).Success?
      && JavaGet(View(BuilderPut(h1, b, Some(t), Some(v)).value, s), Some(t)) == Success(Some(v))
  {
    var (h1, b) := NewBuilder(h);
    var h2 := BuilderPut(h1, b, Some(t), Some(v)).value;
    BuilderPutFrame(h1, b, Some(t), Some(v), b);
    JavaGetAfterPut(h1.maps[b.index], t, v, t);
  }

  /** With the copying `build()`, a built set keeps the builder's contents at the time of `build()`, whatever is put later. */
  lemma CopyingSetIsolated<T>(h: Heap, b: Ref, option: Option<Token<T>>, value: Option<T>)
    requires Allocated(h, b)
    ensures var (h1, s) := BuildCopying(h, b);
      BuilderPut(h1, b, option, value).Success? ==>
        View(BuilderPut(h1, b, option, value).value, s) == OptionSet(h.maps[b.index])
  {
    var (h1, s) := BuildCopying(h, b);
    if BuilderPut(h1, b, option, value).Success? {
      BuilderPutFrame(h1, b, option, value, s);
    }
  }

  /** A one-entry option set built as the client's `setOption` does: new builder, one put, `build()` (copying). */
  function JavaSingle<T>(option: Option<Token<T>>, value: Option<T>): (r: Result<OptionSet>)
    ensures r.Failure? <==> option.None? || value.None?
    ensures r.Success? ==> r.value.data.Keys == {option.value.name}
    ensures r.Success? ==> r.value.data == map[option.value.name := option.value.codec.encode(value.value)]
  {
    var (h1, b) := NewBuilder(Heap([]));
    var h2 :- BuilderPut(h1, b, option, value);
    var (h3, s) := BuildCopying(h2, b);
    Success(View(h3, s))
  }

  // ---------------------------------------------------------------------------
  // Java wire form: {"options": {...}}
  // ---------------------------------------------------------------------------

  /** `JsonAdapter.serialize`: the map's entries under an `options` member. */
  function JavaSerialize(s: OptionSet): (j: Json)
    ensures j.JObj? && OptionsKey in j.fields
  {
    JObj(map[OptionsKey := JObj(s.data)])
  }

  /**
   * `JsonAdapter.deserialize`: `getAsJsonObject()` on the element (`IllegalStateException` if it
   * is not an object), then `getAsJsonObject("options")`, a cast of the member (null when missing,
   * so `entrySet()` raises `NullPointerException`; `ClassCastException` when not an object).
   */
  function JavaDeserialize(j: Json): (r: Result<OptionSet>)
    ensures !j.JObj? ==> r == Failure(IllegalState)
    ensures j.JObj? && OptionsKey !in j.fields ==> r == Failure(NullPointer)
  {
    if !j.JObj? then Failure(IllegalState)
    else if OptionsKey !in j.fields then Failure(NullPointer)
    else
      var inner := j.fields[OptionsKey];
      if !inner.JObj? then Failure(ClassCast) else Success(OptionSet(inner.fields))
  }

  /**
   * A stored value its adapter refuses with `IllegalStateException` (an array where a number is
   * expected, say) makes Java's `get` raise a syntax error instead: `Gson.fromJson` rethrows it.
   */
  lemma JavaGetRethrows<T>(s: OptionSet, t: Token<T>)
    requires t.name in s.data && !s.data[t.name].JNull? && t.codec.decode(s.data[t.name]) == Failure(IllegalState)
    ensures JavaGet(s, Some(t)) == Failure(Serialization)
  {
  }

  /** Java reads back what it writes. */
  lemma JavaRoundTrip(s: OptionSet)
    ensures JavaDeserialize(JavaSerialize(s)) == Success(s)
  {
  }

  /**
   * Java accepts exactly an object whose `options` member is an object, keeps exactly that
   * member's entries, and drops any other member: writing the result back gives the `options`
   * member alone.
   */
  lemma JavaDeserializeSpec(j: Json)
    ensures JavaDeserialize(j).Success? <==> j.JObj? && OptionsKey in j.fields && j.fields[OptionsKey].JObj?
    ensures JavaDeserialize(j).Success? ==>
      JavaDeserialize(j).value.data == j.fields[OptionsKey].fields
      && JavaSerialize(JavaDeserialize(j).value) == JObj(map[OptionsKey := j.fields[OptionsKey]])
  {
  }

  /** Gson's `Integer` adapter: integers as JSON numbers. */
  const IntCodec: Codec<int> := Codec(IntJson, GsonNextInt)

  /** Gson's `BigDecimal` adapter: the exact decimal, scale included. */
  const DecimalCodec: Codec<Decimal> := Codec((d: Decimal) => JNum(d), GsonAsDecimal)

  /** `{"options": {"iso": 100, "aperture": 2.0, "isoSupport": [100, 200]}}`. */
  const SampleReply: Json :=
    JObj(map[OptionsKey := JObj(map[
      "iso" := IntJson(100),
      "aperture" := JNum(Decimal(20, 1)),
      "isoSupport" := JArr([IntJson(100), IntJson(200)])])])

  /** Gson decodes a non-empty array as its first element's value followed by the rest's. */
  lemma GsonDecodeAllCons<T>(c: Codec<T>, x: Json, rest: seq<Json>)
    requires GsonDecode(c, x).Success? && GsonDecodeAll(c, rest).Success?
    ensures GsonDecodeAll(c, [x] + rest) == Success([GsonDecode(c, x).value] + GsonDecodeAll(c, rest).value)
  {
    assert ([x] + rest)[1..] == rest;
  }

  /** Gson's `Integer` adapter reads back a 32-bit integer. */
  lemma IntCodecDecodes(n: int)
    requires IsInt32(n)
    ensures GsonDecode(IntCodec, IntJson(n)) == Success(Some(n))
  {
    assert IntCodec.decode(IntJson(n)) == Success(n);
  }

  lemma GsonDecodeAllNil<T>(c: Codec<T>)
    ensures GsonDecodeAll(c, []) == Success([])
  {
  }

  /** The iso support list of the sample reply, `[100, 200]`. */
  lemma SampleIsoSupport()
    ensures GsonDecodeAll(IntCodec, [IntJson(100), IntJson(200)]) == Success([Some(100), Some(200)])
  {
    assert IsInt32(100) && IsInt32(200);
    hide *;
    IntCodecDecodes(100);
    IntCodecDecodes(200);
    var none: seq<Json> := [];
    GsonDecodeAllNil(IntCodec);
    GsonDecodeAllCons(IntCodec, IntJson(200), none);
    assert [IntJson(200)] + none == [IntJson(200)];
    assert [Some(200)] + [] == [Some(200)];
    GsonDecodeAllCons(IntCodec, IntJson(100), [IntJson(200)]);
    assert [IntJson(100)] + [IntJson(200)] == [IntJson(100), IntJson(200)];
    assert [Some(100)] + [Some(200)] == [Some(100), Some(200)];
  }

  /** The sample reply reads as iso 100, aperture 2.0 (scale 1) and iso support [100, 200]. */
  lemma JavaSampleReply()
    ensures JavaDeserialize(SampleReply).Success?
    ensures var s := JavaDeserialize(SampleReply).value;
      && JavaGet(s, Some(Token("iso", IntCodec))) == Success(Some(100))
      && JavaGet(s, Some(Token("aperture", DecimalCodec))) == Success(Some(Decimal(20, 1)))
      && JavaGetArray(s, Some(Token("isoSupport", IntCodec))) == Success(Some([Some(100), Some(200)]))
  {
    var s := SampleOptions();
    SampleIsoSupport();
    hide *;
    SampleIso(s);
    SampleAperture(s);
    SampleIsoSupportGet(s);
  }

  /** The option set the sample reply reads as: the `options` member's entries. */
  lemma SampleOptions() returns (s: OptionSet)
    ensures JavaDeserialize(SampleReply) == Success(s)
    ensures s.data == map["iso" := IntJson(100), "aperture" := JNum(Decimal(20, 1)),
                          "isoSupport" := JArr([IntJson(100), IntJson(200)])]
  {
    s := JavaDeserialize(SampleReply).value;
  }

  lemma SampleIso(s: OptionSet)
    requires "iso" in s.data && s.data["iso"] == IntJson(100)
    ensures JavaGet(s, Some(Token("iso", IntCodec))) == Success(Some(100))
  {
    IntCodecDecodes(100);
  }

  lemma SampleAperture(s: OptionSet)
    requires "aperture" in s.data && s.data["aperture"] == JNum(Decimal(20, 1))
    ensures JavaGet(s, Some(Token("aperture", DecimalCodec))) == Success(Some(Decimal(20, 1)))
  {
  }

  lemma SampleIsoSupportGet(s: OptionSet)
    requires "isoSupport" in s.data && s.data["isoSupport"] == JArr([IntJson(100), IntJson(200)])
    requires GsonDecodeAll(IntCodec, [IntJson(100), IntJson(200)]) == Success([Some(100), Some(200)])
    ensures JavaGetArray(s, Some(Token("isoSupport", IntCodec))) == Success(Some([Some(100), Some(200)]))
  {
  }

  // ---------------------------------------------------------------------------
  // Kotlin: get, put and build
  // ---------------------------------------------------------------------------

  /** `OptionSet.get(Option)` in Kotlin: an absent name gives null; a stored value, JSON `null` included, goes through the serializer. */
  function KotlinGet<T>(s: OptionSet, t: Token<T>): (r: Result<Option<T>>)
    ensures t.name !in s.data ==> r == Success(None)
    ensures t.name in s.data ==> (r.Success? <==> t.codec.decode(s.data[t.name]).Success?)
  {
    if t.name !in s.data then Success(None)
    else
      var v :- t.codec.decode(s.data[t.name]);
      Success(Some(v))
  }

  /** `OptionSet.get(ArrayOption)` in Kotlin: `jsonArray` rejects a non-array, then each element is decoded in order. */
  function KotlinGetArray<T>(s: OptionSet, t: Token<T>): (r: Result<Option<seq<T>>>)
    ensures t.name !in s.data ==> r == Success(None)
    ensures t.name in s.data && !s.data[t.name].JArr? ==> r == Failure(IllegalArgument)
    ensures r.Success? && r.value.Some? ==> t.name in s.data && |r.value.value| == |s.data[t.name].items|
  {
    if t.name !in s.data then Success(None)
    else
      var items :- KotlinArray(s.data[t.name]);
      var list :- DecodeAll(t.codec, items);
      Success(Some(list))
  }

  /** `OptionSetBuilder.put(Option, T)`: the encoded value under the name. */
  function KotlinPut<T>(m: map<string, Json>, t: Token<T>, v: T): (r: map<string, Json>)
    ensures r.Keys == m.Keys + {t.name}
  {
    m[t.name := t.codec.encode(v)]
  }

  /** `OptionSetBuilder.put(ArrayOption, List<T>)`: a JSON array with one encoded element per list item, in order. */
  function KotlinPutArray<T>(m: map<string, Json>, t: Token<T>, vs: seq<T>): (r: map<string, Json>)
    ensures r.Keys == m.Keys + {t.name}
    ensures r[t.name].JArr? && |r[t.name].items| == |vs|
  {
    m[t.name := JArr(EncodeAll(t.codec, vs))]
  }

  /**
   * `OptionSetBuilder.build()` on the value the builder's map holds at that moment. The option set
   * wraps the builder's mutable map itself rather than a copy; the heap model below shows what
   * that means for puts made after an early `build()`.
   */
  function KotlinBuild(m: map<string, Json>): (s: OptionSet)
    ensures s.data == m
  {
    OptionSet(m)
  }

  /** After a Kotlin put, the token reads back the value; other names read what they read before. */
  lemma KotlinGetAfterPut<T(!new), U>(m: map<string, Json>, t: Token<T>, v: T, other: Token<U>)
    requires RoundTrips(t.codec)
    ensures KotlinGet(KotlinBuild(KotlinPut(m, t, v)), t) == Success(Some(v))
    ensures other.name != t.name ==>
      KotlinGet(KotlinBuild(KotlinPut(m, t, v)), other) == KotlinGet(KotlinBuild(m), other)
  {
    assert t.codec.decode(t.codec.encode(v)) == Success(v);
  }

  /** After a Kotlin array put, the token reads back the list, element for element and in order. */
  lemma KotlinGetArrayAfterPut<T(!new)>(m: map<string, Json>, t: Token<T>, vs: seq<T>)
    requires RoundTrips(t.codec)
    ensures KotlinGetArray(KotlinBuild(KotlinPutArray(m, t, vs)), t) == Success(Some(vs))
  {
    DecodeEncodeAll(t.codec, vs);
  }

  /** A second Kotlin put under the same name replaces the first. */
  lemma KotlinPutOverwrites<T, U>(m: map<string, Json>, t: Token<T>, v: T, u: Token<U>, w: U)
    requires t.name == u.name
    ensures KotlinPut(KotlinPut(m, t, v), u, w) == KotlinPut(m, u, w)
  {
  }

  // ---------------------------------------------------------------------------
  // Kotlin: the builder's map in the heap
  // ---------------------------------------------------------------------------

  /** `OptionSetBuilder.put(Option, T)` on the builder's map in the heap; no other map changes. */
  function KotlinBuilderPut<T>(h: Heap, b: Ref, t: Token<T>, v: T): (h': Heap)
    requires Allocated(h, b)
    ensures |h'.maps| == |h.maps|
    ensures h'.maps[b.index] == KotlinPut(h.maps[b.index], t, v)
    ensures forall i :: 0 <= i < |h.maps| && i != b.index ==> h'.maps[i] == h.maps[i]
  {
    Heap(h.maps[b.index := KotlinPut(h.maps[b.index], t, v)])
  }

  /**
   * `build()` is public and the block of `buildOptionSet` runs with the builder as receiver, so
   * `buildOptionSet { val early = build(); put(t, v) }` is legal. As written, `OptionSet(data)`
   * wraps the builder's live map (`BuildAliased`), so the set built early, empty when built, reads
   * the value put after it.
   */
  lemma KotlinAliasedSetSeesLaterPut<T(!new)>(h: Heap, t: Token<T>, v: T)
    requires RoundTrips(t.codec)
    ensures var (h1, b) := NewBuilder(h);
      var early := BuildAliased(h1, b);
      && KotlinGet(View(h1, early), t) == Success(None)
      && KotlinGet(View(KotlinBuilderPut(h1, b, t, v), early), t) == Success(Some(v))
  {
    var (h1, b) := NewBuilder(h);
    KotlinGetAfterPut(h1.maps[b.index], t, v, t);
  }

  /** With a copying `build()`, a set built early keeps what the builder held at that moment. */
  lemma KotlinCopyingSetIsolated<T>(h: Heap, b: Ref, t: Token<T>, v: T)
    requires Allocated(h, b)
    ensures var (h1, early) := BuildCopying(h, b);
      View(KotlinBuilderPut(h1, b, t, v), early) == OptionSet(h.maps[b.index])
  {
  }

  // ---------------------------------------------------------------------------
  // Kotlin wire form: the map itself
  // ---------------------------------------------------------------------------

  /** `OptionSetSerializer.serialize`: the entries as a flat object. */
  function KotlinSerialize(s: OptionSet): (j: Json)
    ensures j.JObj?
  {
    JObj(s.data)
  }

  /** `OptionSetSerializer.deserialize`: `jsonObject` rejects a non-object; every member becomes an entry. */
  function KotlinDeserialize(j: Json): (r: Result<OptionSet>)
    ensures r.Success? <==> j.JObj?
    ensures r.Failure? ==> r.error == IllegalArgument
  {
    var fields :- KotlinObject(j);
    Success(OptionSet(fields))
  }

  /** Kotlin's two directions are inverse: a JSON object decodes to a set exactly when that set encodes to it. */
  lemma KotlinRoundTrip(j: Json, s: OptionSet)
    ensures KotlinDeserialize(j) == Success(s) <==> KotlinSerialize(s) == j
  {
  }

  /**
   * Java's wire form is Kotlin's wrapped in `{"options": ...}`, the wrapper that Kotlin's
   * `camera.getOptions` reply record reads (`response.result!!.options`).
   */
  lemma WireFormsAgree(s: OptionSet)
    ensures JavaSerialize(s) == JObj(map[OptionsKey := KotlinSerialize(s)])
    ensures JavaDeserialize(JObj(map[OptionsKey := KotlinSerialize(s)])) == KotlinDeserialize(KotlinSerialize(s))
  {
  }

  /**
   * The Kotlin serializer as written disagrees with its unit test, which expects an `options`
   * wrapper: the empty set encodes as `{}`, not `{"options":{}}`; and `{}`, `{"hello":null}` and
   * `{"options":1}`, which the test expects to be rejected, decode.
   */
  lemma KotlinSerializerFlat()
    ensures KotlinSerialize(Empty) == JObj(map[])
    ensures KotlinSerialize(Empty) != JObj(map[OptionsKey := JObj(map[])])
    ensures KotlinDeserialize(JObj(map[])) == Success(Empty)
    ensures KotlinDeserialize(JObj(map["hello" := JNull])) == Success(OptionSet(map["hello" := JNull]))
    ensures KotlinDeserialize(JObj(map[OptionsKey := IntJson(1)])).Success?
    ensures JavaDeserialize(JObj(map[])) == Failure(NullPointer)
  {
    assert OptionsKey in JObj(map[OptionsKey := JObj(map[])]).fields;
  }
}
