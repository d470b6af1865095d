/**
 * The Java `AccessPoint` of `camera._listAccessPoints` and `camera._setAccessPoint`: a value
 * object with nine nullable fields, its `Builder`, `equals`, the unboxing getters, and its Gson
 * wire form.
 */
module AccessPoints {
  import opened Wrappers
  import opened Numbers
  import opened Json
  import Text

  datatype Security = NoSecurity | Wep | WpaPsk

  datatype Allocation = Dynamic | Static

  /**
   * The nine fields. `ssid` and `security` are never null in an access point a builder made;
   * Gson can leave any field null.
   */
  datatype AccessPoint = AccessPoint(
    ssid: Option<string>,
    isStealth: Option<bool>,
    security: Option<Security>,
    password: Option<string>,
    connectionPriority: Option<int>,
    ipAddressAllocation: Option<Allocation>,
    ipAddress: Option<string>,
    subnetMask: Option<string>,
    defaultGateway: Option<string>)

  /** The builder's fields: the same nine, `ssid` fixed at construction. */
  datatype Builder = Builder(
    ssid: string,
    security: Option<Security>,
    isStealth: Option<bool>,
    password: Option<string>,
    connectionPriority: Option<int>,
    ipAddressAllocation: Option<Allocation>,
    ipAddress: Option<string>,
    subnetMask: Option<string>,
    defaultGateway: Option<string>)

  /** A mutating builder call: the builder as the call leaves it, and the exception it raised, if any. */
  datatype Outcome = Outcome(builder: Builder, error: Option<Exception>)

  /** `new Builder(ssid)`: a null SSID raises `NullPointerException`; security starts as `NONE`, everything else null. */
  function NewBuilder(ssid: Option<string>): (r: Result<Builder>)
    ensures r.Success? <==> ssid.Some?
    ensures r.Failure? ==> r.error == NullPointer
    ensures r.Success? ==> r.value.ssid == ssid.value && r.value.security == Some(NoSecurity)
    ensures r.Success? ==> r.value.isStealth.None? && r.value.password.None? && r.value.connectionPriority.None?
    ensures r.Success? ==> r.value.ipAddressAllocation.None? && r.value.ipAddress.None?
    ensures r.Success? ==> r.value.subnetMask.None? && r.value.defaultGateway.None?
  {
    if ssid.None? then Failure(NullPointer)
    else Success(Builder(ssid.value, Some(NoSecurity), None, None, None, None, None, None, None))
  }

  /**
   * `security(security, password)`: anything but `NONE` without a password raises
   * `NullPointerException` before any field changes; otherwise both fields are overwritten.
   */
  function SetSecurity(b: Builder, security: Option<Security>, password: Option<string>): (o: Outcome)
    ensures o.error.Some? <==> security != Some(NoSecurity) && password.None?
    ensures o.error.Some? ==> o.error.value == NullPointer && o.builder == b
    ensures o.error.None? ==> o.builder == b.(security := security, password := password)
  {
    if security != Some(NoSecurity) && password.None? then Outcome(b, Some(NullPointer))
    else Outcome(b.(security := security, password := password), None)
  }

  function SetStealth(b: Builder, isStealth: bool): (b': Builder)
  {
    b.(isStealth := Some(isStealth))
  }

  function SetConnectionPriority(b: Builder, connectionPriority: int): (b': Builder)
  {
    b.(connectionPriority := Some(connectionPriority))
  }

  /**
   * `ipAddress(ipAddress, subnetMask, defaultGateway)`: the allocation becomes `STATIC` first,
   * then each argument is checked and stored in turn, so a null argument raises
   * `NullPointerException` with the fields before it already updated.
   */
  function SetIpAddress(b: Builder, ipAddress: Option<string>, subnetMask: Option<string>,
                        defaultGateway: Option<string>): (o: Outcome)
    ensures o.builder.ipAddressAllocation == Some(Static)
    ensures o.error.Some? <==> ipAddress.None? || subnetMask.None? || defaultGateway.None?
    ensures o.error.Some? ==> o.error.value == NullPointer
    ensures o.error.None? ==>
      o.builder == b.(ipAddressAllocation := Some(Static), ipAddress := ipAddress,
                      subnetMask := subnetMask, defaultGateway := defaultGateway)
  {
    var b1 := b.(ipAddressAllocation := Some(Static));
    if ipAddress.None? then Outcome(b1, Some(NullPointer))
    else
      var b2 := b1.(ipAddress := ipAddress);
      if subnetMask.None? then Outcome(b2, Some(NullPointer))
      else
        var b3 := b2.(subnetMask := subnetMask);
        if defaultGateway.None? then Outcome(b3, Some(NullPointer))
        else Outcome(b3.(defaultGateway := defaultGateway), None)
  }

  /** `build()`: the builder's fields, unchanged. */
  function Build(b: Builder): (a: AccessPoint)
  {
    AccessPoint(Some(b.ssid), b.isStealth, b.security, b.password, b.connectionPriority,
                b.ipAddressAllocation, b.ipAddress, b.subnetMask, b.defaultGateway)
  }

  /**
   * A call with all three addresses present sets them and the allocation; one with the subnet
   * mask missing still leaves the allocation `STATIC` and the new IP address in place, over
   * whatever the builder held before.
   */
  lemma IpAddressPartialUpdate(b: Builder, ip: string, gateway: string)
    ensures var o := SetIpAddress(b, Some(ip), None, Some(gateway));
      && o.error == Some(NullPointer)
      && Build(o.builder).ipAddressAllocation == Some(Static)
      && Build(o.builder).ipAddress == Some(ip)
      && Build(o.builder).subnetMask == b.subnetMask
      && Build(o.builder).defaultGateway == b.defaultGateway
  {
  }

  /** `security(NONE, null)` after a secured setting clears the earlier password. */
  lemma NoSecurityClearsPassword(b: Builder, password: string)
    ensures var o1 := SetSecurity(b, Some(WpaPsk), Some(password));
      && o1.error.None? && Build(o1.builder).password == Some(password)
      && var o2 := SetSecurity(o1.builder, Some(NoSecurity), None);
      && o2.error.None? && Build(o2.builder).password.None? && Build(o2.builder).security == Some(NoSecurity)
  {
  }

  /**
   * Building copies every field: the access point's fields read back as the builder's, and two
   * builders build equal access points exactly when they are equal.
   */
  lemma BuildFaithful(b: Builder, c: Builder)
    ensures Build(b).ssid == Some(b.ssid) && Build(b).security == b.security && Build(b).password == b.password
    ensures Build(b).isStealth == b.isStealth && Build(b).connectionPriority == b.connectionPriority
    ensures Build(b).ipAddressAllocation == b.ipAddressAllocation && Build(b).ipAddress == b.ipAddress
    ensures Build(b).subnetMask == b.subnetMask && Build(b).defaultGateway == b.defaultGateway
    ensures Build(b) == Build(c) <==> b == c
  {
  }

  // ---------------------------------------------------------------------------
  // Getters and equals
  // ---------------------------------------------------------------------------

  /** `isStealth()`: unboxes the field, so a null field raises `NullPointerException`. */
  function IsStealth(a: AccessPoint): (r: Result<bool>)
    ensures r.Failure? <==> a.isStealth.None?
    ensures r.Failure? ==> r.error == NullPointer
    ensures r.Success? ==> Some(r.value) == a.isStealth
  {
    if a.isStealth.None? then Failure(NullPointer) else Success(a.isStealth.value)
  }

  /** `getConnectionPriority()` as written: unboxes the field, so a null field raises `NullPointerException`. */
  function ConnectionPriorityAsWritten(a: AccessPoint): (r: Result<int>)
    ensures r.Failure? <==> a.connectionPriority.None?
    ensures r.Failure? ==> r.error == NullPointer
    ensures r.Success? ==> Some(r.value) == a.connectionPriority
  {
    if a.connectionPriority.None? then Failure(NullPointer) else Success(a.connectionPriority.value)
  }

  /** `getIpAddressAllocation()` as written: the field, null when the builder never set it. */
  function AllocationAsWritten(a: AccessPoint): (r: Option<Allocation>)
    ensures r == a.ipAddressAllocation
  {
    a.ipAddressAllocation
  }

  /** The defaults the getters' documentation states: priority 1 and allocation `DYNAMIC`. */
  const DefaultPriority := 1

  /** `getConnectionPriority()` as documented: the field, or 1 when it was never set. */
  function ConnectionPriority(a: AccessPoint): (r: int)
    ensures a.connectionPriority.Some? ==> Some(r) == a.connectionPriority
    ensures a.connectionPriority.None? ==> r == DefaultPriority
  {
    a.connectionPriority.GetOr(DefaultPriority)
  }

  /** `getIpAddressAllocation()` as documented: never null, `DYNAMIC` when it was never set. */
  function IpAddressAllocation(a: AccessPoint): (r: Allocation)
    ensures a.ipAddressAllocation.Some? ==> Some(r) == a.ipAddressAllocation
    ensures a.ipAddressAllocation.None? ==> r == Dynamic
  {
    a.ipAddressAllocation.GetOr(Dynamic)
  }

  /**
   * On the access point the minimal builder makes, the getters as written break their own
   * documentation: `getConnectionPriority()` raises `NullPointerException` where the default is
   * promised to be 1, and the `@Nonnull` `getIpAddressAllocation()` returns null where the
   * default is promised to be `DYNAMIC`. `isStealth()` raises as well.
   */
  lemma MinimalGettersAsWritten(ssid: string)
    ensures var a := Build(NewBuilder(Some(ssid)).value);
      && ConnectionPriorityAsWritten(a) == Failure(NullPointer)
      && AllocationAsWritten(a).None?
      && IsStealth(a) == Failure(NullPointer)
  {
  }

  /**
   * The documented getters answer 1 and `DYNAMIC` for the minimal access point and agree with the
   * code wherever the field is set.
   */
  lemma DocumentedGetters(ssid: string, a: AccessPoint)
    ensures var m := Build(NewBuilder(Some(ssid)).value);
      ConnectionPriority(m) == 1 && IpAddressAllocation(m) == Dynamic
    ensures ConnectionPriorityAsWritten(a).Success? ==> ConnectionPriorityAsWritten(a).value == ConnectionPriority(a)
    ensures AllocationAsWritten(a).Some? ==> AllocationAsWritten(a).value == IpAddressAllocation(a)
  {
  }

  /**
   * `equals` for two distinct objects: `ssid.equals(that.ssid)` first, which raises on a null
   * SSID of this access point, then `Objects.equals` or `==` on the other eight fields.
   */
  function Equals(a: AccessPoint, b: AccessPoint): (r: Result<bool>)
    ensures r.Failure? <==> a.ssid.None?
    ensures r.Failure? ==> r.error == NullPointer
  {
    if a.ssid.None? then Failure(NullPointer)
    else Success(
      && a.ssid == b.ssid
      && a.isStealth == b.isStealth
      && a.security == b.security
      && a.password == b.password
      && a.connectionPriority == b.connectionPriority
      && a.ipAddressAllocation == b.ipAddressAllocation
      && a.ipAddress == b.ipAddress
      && a.subnetMask == b.subnetMask
      && a.defaultGateway == b.defaultGateway)
  }

  /** Whenever this SSID is present, `equals` is exactly equality of all nine fields; it is symmetric between built access points. */
  lemma EqualsIsEquality(a: AccessPoint, b: AccessPoint)
    requires a.ssid.Some?
    ensures Equals(a, b) == Success(a == b)
    ensures b.ssid.Some? ==> Equals(a, b) == Equals(b, a)
  {
  }

  // ---------------------------------------------------------------------------
  // Gson wire form
  // ---------------------------------------------------------------------------

  const SsidKey := "ssid"
  const StealthKey := "ssidStealth"
  const SecurityKey := "security"
  const PasswordKey := "password"
  const PriorityKey := "connectionPriority"
  const AllocationKey := "ipAddressAllocation"
  const IpAddressKey := "ipAddress"
  const SubnetMaskKey := "subnetMask"
  const GatewayKey := "defaultGateway"

  /** The `@SerializedName` of each security type. */
  function SecurityName(s: Security): string {
    match s
    case NoSecurity => "none"
    case Wep => "WEP"
    case WpaPsk => "WPA/WPA2 PSK"
  }

  /** Gson's enum adapter reading a name: the constant with that serialised name, or null. */
  function SecurityOfName(name: string): (r: Option<Security>)
    ensures r.Some? ==> SecurityName(r.value) == name
    ensures r.None? ==> forall s: Security :: SecurityName(s) != name
  {
    if name == "none" then Some(NoSecurity)
    else if name == "WEP" then Some(Wep)
    else if name == "WPA/WPA2 PSK" then Some(WpaPsk)
    else None
  }

  function AllocationName(a: Allocation): string {
    match a
    case Dynamic => "dynamic"
    case Static => "static"
  }

  function AllocationOfName(name: string): (r: Option<Allocation>)
    ensures r.Some? ==> AllocationName(r.value) == name
    ensures r.None? ==> forall a: Allocation :: AllocationName(a) != name
  {
    if name == "dynamic" then Some(Dynamic)
    else if name == "static" then Some(Static)
    else None
  }

  /** A nullable field's member value: nothing for null. */
  function Written<T>(v: Option<T>, write: T -> Json): (r: Option<Json>)
    ensures r.Some? <==> v.Some?
  {
    if v.None? then None else Some(write(v.value))
  }

  function StringJson(s: string): Json {
    JStr(s)
  }

  function BoolJson(b: bool): Json {
    JBool(b)
  }

  function SecurityJson(s: Security): Json {
    JStr(SecurityName(s))
  }

  function AllocationJson(a: Allocation): Json {
    JStr(AllocationName(a))
  }

  /** The serialised names of the nine fields. */
  const Keys: set<string> :=
    {SsidKey, StealthKey, SecurityKey, PasswordKey, PriorityKey, AllocationKey, IpAddressKey, SubnetMaskKey, GatewayKey}

  /** The member Gson writes under `key`, or nothing when that field is null. */
  function MemberValue(a: AccessPoint, key: string): Option<Json> {
    if key == SsidKey then Written(a.ssid, StringJson)
    else if key == StealthKey then Written(a.isStealth, BoolJson)
    else if key == SecurityKey then Written(a.security, SecurityJson)
    else if key == PasswordKey then Written(a.password, StringJson)
    else if key == PriorityKey then Written(a.connectionPriority, IntJson)
    else if key == AllocationKey then Written(a.ipAddressAllocation, AllocationJson)
    else if key == IpAddressKey then Written(a.ipAddress, StringJson)
    else if key == SubnetMaskKey then Written(a.subnetMask, StringJson)
    else if key == GatewayKey then Written(a.defaultGateway, StringJson)
    else None
  }

  /** `gson.toJson(accessPoint)`: every non-null field under its serialised name, and nothing else. */
  function Serialize(a: AccessPoint): (j: Json)
    ensures j.JObj? && j.fields.Keys <= Keys
    ensures forall k :: k in Keys ==> (k in j.fields <==> MemberValue(a, k).Some?)
    ensures forall k :: k in j.fields ==> j.fields[k] == MemberValue(a, k).value
  {
    JObj(map k | k in Keys && MemberValue(a, k).Some? :: MemberValue(a, k).value)
  }

  /** A `String` field: a string, or the text of a number or boolean; missing or `null` gives null. */
  function StringField(fields: map<string, Json>, key: string): (r: Result<Option<string>>)
    ensures key !in fields || fields[key].JNull? ==> r == Success(None)
    ensures key in fields && fields[key].JStr? ==> r == Success(Some(fields[key].str))
    ensures r.Failure? ==> r.error == Serialization
  {
    if key !in fields then Success(None)
    else match fields[key]
      case JNull => Success(None)
      case JStr(s) => Success(Some(s))
      case JNum(d) => Success(Some(NumberText(d)))
      case JBool(b) => Success(Some(BoolText(b)))
      case _ => Failure(Serialization)
  }

  /** A `Boolean` field: a boolean, or a string read by `Boolean.parseBoolean` (only "true", in any case, is true). */
  function BoolField(fields: map<string, Json>, key: string): (r: Result<Option<bool>>)
    ensures key !in fields || fields[key].JNull? ==> r == Success(None)
    ensures key in fields && fields[key].JBool? ==> r == Success(Some(fields[key].b))
    ensures r.Failure? ==> r.error == Serialization
  {
    if key !in fields then Success(None)
    else match fields[key]
      case JNull => Success(None)
      case JBool(b) => Success(Some(b))
      case JStr(s) => Success(Some(Text.EqualsIgnoreCase(s, "true")))
      case _ => Failure(Serialization)
  }

  /**
   * An `Integer` field read from a tree: a number goes through `JsonPrimitive.getAsInt`, which
   * truncates a fraction and keeps the low 32 bits; a string must be an `int` in decimal.
   */
  function IntegerField(fields: map<string, Json>, key: string): (r: Result<Option<int>>)
    ensures key !in fields || fields[key].JNull? ==> r == Success(None)
    ensures key in fields && fields[key].JNum? ==> r == Success(Some(IntValue(fields[key].num)))
    ensures r.Success? && r.value.Some? ==> IsInt32(r.value.value)
    ensures r.Failure? <==> key in fields && (fields[key].JBool? || fields[key].JArr? || fields[key].JObj?
                                               || (fields[key].JStr? && ParseInt(fields[key].str).Failure?))
    ensures r.Failure? ==> r.error == Serialization
  {
    if key !in fields then Success(None)
    else match fields[key]
      case JNull => Success(None)
      case JNum(d) => Success(Some(IntValue(d)))
      case JStr(s) => (match ParseInt(s) case Success(n) => Success(Some(n)) case Failure(_) => Failure(Serialization))
      case _ => Failure(Serialization)
  }

  /** An enum field: a name maps through `lookup` (an unknown name gives null); a number's text is never a name. */
  function EnumField<E>(fields: map<string, Json>, key: string, lookup: string -> Option<E>): (r: Result<Option<E>>)
    ensures key !in fields || fields[key].JNull? ==> r == Success(None)
    ensures key in fields && fields[key].JStr? ==> r == Success(lookup(fields[key].str))
    ensures r.Failure? ==> r.error == Serialization
  {
    if key !in fields then Success(None)
    else match fields[key]
      case JNull => Success(None)
      case JStr(s) => Success(lookup(s))
      case JNum(_) => Success(None)
      case _ => Failure(Serialization)
  }

  /** `gson.fromJson(json, AccessPoint.class)`: JSON `null` gives null; otherwise reflective, field by field, and unknown members are ignored. */
  function Deserialize(j: Json): (r: Result<Option<AccessPoint>>)
    ensures r.Success? && r.value.None? <==> j.JNull?
    ensures !j.JObj? && !j.JNull? ==> r == Failure(Serialization)
    ensures r.Success? && r.value.Some? && SsidKey in j.fields && j.fields[SsidKey].JStr?
            ==> r.value.value.ssid == Some(j.fields[SsidKey].str)
    ensures r.Failure? ==> r.error == Serialization
  {
    if j.JNull? then Success(None)
    else if !j.JObj? then Failure(Serialization)
    else
      var f := j.fields;
      var ssid :- StringField(f, SsidKey);
      var isStealth :- BoolField(f, StealthKey);
      var security :- EnumField(f, SecurityKey, SecurityOfName);
      var password :- StringField(f, PasswordKey);
      var priority :- IntegerField(f, PriorityKey);
      var allocation :- EnumField(f, AllocationKey, AllocationOfName);
      var ipAddress :- StringField(f, IpAddressKey);
      var subnetMask :- StringField(f, SubnetMaskKey);
      var gateway :- StringField(f, GatewayKey);
      Success(Some(AccessPoint(ssid, isStealth, security, password, priority, allocation, ipAddress, subnetMask, gateway)))
  }

  /** Every access point whose priority is an `int` reads back from what Gson writes for it. */
  lemma RoundTrip(a: AccessPoint)
    requires a.connectionPriority.Some? ==> IsInt32(a.connectionPriority.value)
    ensures Deserialize(Serialize(a)) == Success(Some(a))
  {
    var f := Serialize(a).fields;
    StringRead(a, SsidKey, a.ssid);
    StringRead(a, PasswordKey, a.password);
    StringRead(a, IpAddressKey, a.ipAddress);
    StringRead(a, SubnetMaskKey, a.subnetMask);
    StringRead(a, GatewayKey, a.defaultGateway);
    StealthRead(a);
    SecurityRead(a);
    PriorityRead(a);
    AllocationRead(a);
  }

  lemma StringRead(a: AccessPoint, key: string, v: Option<string>)
    requires key in Keys && MemberValue(a, key) == Written(v, StringJson)
    ensures StringField(Serialize(a).fields, key) == Success(v)
  {
  }

  lemma StealthRead(a: AccessPoint)
    ensures BoolField(Serialize(a).fields, StealthKey) == Success(a.isStealth)
  {
    assert MemberValue(a, StealthKey) == Written(a.isStealth, BoolJson);
  }

  lemma SecurityRead(a: AccessPoint)
    ensures EnumField(Serialize(a).fields, SecurityKey, SecurityOfName) == Success(a.security)
  {
    assert MemberValue(a, SecurityKey) == Written(a.security, SecurityJson);
    if a.security.Some? {
      assert SecurityOfName(SecurityName(a.security.value)) == a.security;
    }
  }

  lemma PriorityRead(a: AccessPoint)
    requires a.connectionPriority.Some? ==> IsInt32(a.connectionPriority.value)
    ensures IntegerField(Serialize(a).fields, PriorityKey) == Success(a.connectionPriority)
  {
    assert MemberValue(a, PriorityKey) == Written(a.connectionPriority, IntJson);
  }

  lemma AllocationRead(a: AccessPoint)
    ensures EnumField(Serialize(a).fields, AllocationKey, AllocationOfName) == Success(a.ipAddressAllocation)
  {
    assert MemberValue(a, AllocationKey) == Written(a.ipAddressAllocation, AllocationJson);
    if a.ipAddressAllocation.Some? {
      assert AllocationOfName(AllocationName(a.ipAddressAllocation.value)) == a.ipAddressAllocation;
    }
  }

  // ---------------------------------------------------------------------------
  // The fixtures of the unit test
  // ---------------------------------------------------------------------------

  /** The full fixture's builder chain: WPA/WPA2 PSK, stealth, priority 5 and static addresses. */
  function FullBuilder(): (b: Builder) {
    var b0 := NewBuilder(Some("full_ssid")).value;
    var b1 := SetSecurity(b0, Some(WpaPsk), Some("full_password")).builder;
    var b2 := SetConnectionPriority(SetStealth(b1, true), 5);
    SetIpAddress(b2, Some("192.168.1.46"), Some("255.255.255.0"), Some("192.168.1.1")).builder
  }

  const FullJson := JObj(map[
    SsidKey := JStr("full_ssid"), StealthKey := JBool(true), SecurityKey := JStr("WPA/WPA2 PSK"),
    PasswordKey := JStr("full_password"), PriorityKey := IntJson(5), AllocationKey := JStr("static"),
    IpAddressKey := JStr("192.168.1.46"), SubnetMaskKey := JStr("255.255.255.0"), GatewayKey := JStr("192.168.1.1")])

  const MinJson := JObj(map[SsidKey := JStr("min_ssid"), SecurityKey := JStr("none")])

  /** The full access point serialises to the full fixture, and the fixture reads back as an equal access point. */
  lemma TestFull()
    ensures Serialize(Build(FullBuilder())) == FullJson
    ensures Deserialize(FullJson) == Success(Some(Build(FullBuilder())))
  {
    var a := Build(FullBuilder());
    assert a == AccessPoint(Some("full_ssid"), Some(true), Some(WpaPsk), Some("full_password"), Some(5),
                            Some(Static), Some("192.168.1.46"), Some("255.255.255.0"), Some("192.168.1.1"));
    assert Serialize(a).fields == FullJson.fields;
    RoundTrip(a);
  }

  /** The minimal access point is `{ssid, security: none}` on the wire, both ways. */
  lemma TestMin()
    ensures Serialize(Build(NewBuilder(Some("min_ssid")).value)) == MinJson
    ensures Deserialize(MinJson) == Success(Some(Build(NewBuilder(Some("min_ssid")).value)))
  {
    var a := Build(NewBuilder(Some("min_ssid")).value);
    assert Serialize(a).fields == MinJson.fields;
    RoundTrip(a);
  }
}
