/** The property list codec: section 2.2.2 of MQTT Version 5.0, `src/mqtt_proto/property.rs`. */
module Properties {
  import opened Wrappers
  import opened Bytes
  import opened Packets
  import opened Wire
  import TopicFilter
  import Varint

  /** `ConnectSessionExpiry` exists for encoding only: in CONNECT an interval of 0 is the default and is omitted. */
  datatype Property =
    | PayloadIsUtf8(flag: bool)
    | MessageExpiry(seconds: u32)
    | ContentType(text: Text)
    | ResponseTopic(topic: Text)
    | CorrelationData(data: Text)
    | SubscriptionId(subscription: NonZeroU32)
    | Expiry(expiry: SessionExpiry)
    | ConnectSessionExpiry(expiry: SessionExpiry)
    | AssignedClientId(text: Text)
    | ServerKeepAlive(keepAlive: KeepAlive)
    | AuthMethod(text: Text)
    | AuthData(data: Text)
    | RequestProblem(flag: bool)
    | WillDelay(seconds: u32)
    | RequestResponse(flag: bool)
    | ResponseInformation(text: Text)
    | ServerReference(text: Text)
    | ReasonString(text: Text)
    | ReceiveMaximum(maximum: NonZeroU16)
    | TopicAliasMaximum(aliases: u16)
    | TopicAlias(alias: NonZeroU16)
    | MaximumQoS(qos: QoS)
    | RetainAvailable(flag: bool)
    | User(pair: UserProperty)
    | MaximumPacketSize(size: NonZeroU32)
    | WildcardAvailable(flag: bool)
    | SubscriptionIdsAvailable(flag: bool)
    | SharedAvailable(flag: bool)

  // --- One property ---

  /** Section 2.2.2.2 gives each identifier the type of its value. */
  datatype WireType = FlagType | U16Type | U32Type | VarintType | TextType | TopicType | BinaryType | PairType

  datatype Value =
    | FlagValue(flag: bool)
    | U16Value(word: u16)
    | U32Value(long: u32)
    | VarintValue(number: u32)
    | TextValue(text: Text)
    | TopicValue(text: Text)
    | BinaryValue(text: Text)
    | PairValue(pair: UserProperty)

  function TypeOf(id: byte): Option<WireType> {
    if id in {0x01, 0x17, 0x19, 0x24, 0x25, 0x28, 0x29, 0x2A} then Some(FlagType)
    else if id in {0x13, 0x21, 0x22, 0x23} then Some(U16Type)
    else if id in {0x02, 0x11, 0x18, 0x27} then Some(U32Type)
    else if id in {0x03, 0x12, 0x15, 0x1A, 0x1C, 0x1F} then Some(TextType)
    else if id in {0x09, 0x16} then Some(BinaryType)
    else if id == 0x08 then Some(TopicType)
    else if id == 0x0B then Some(VarintType)
    else if id == 0x26 then Some(PairType)
    else None
  }

  function GetValue(ok: Bytes -> bool, t: WireType, src: Bytes): (r: Read<Value>)
    ensures r.Success? ==>
      && WellFormedValue(ok, r.value.0) && HasType(r.value.0, t)
      && |src| >= ValueSize(r.value.0) + |r.value.1|
  {
    match t
    case FlagType => var (v, rest) :- GetFlag(src); Success((FlagValue(v), rest))
    case U16Type => var (v, rest) :- GetU16(src); Success((U16Value(v), rest))
    case U32Type => var (v, rest) :- GetU32(src); Success((U32Value(v), rest))
    case VarintType => var (v, rest) :- GetVarint(src); Success((VarintValue(v), rest))
    case TextType => var (v, rest) :- GetText(ok, src); Success((TextValue(v), rest))
    case TopicType => var (v, rest) :- GetTopic(ok, src); Success((TopicValue(v), rest))
    case BinaryType => var (v, rest) :- GetBinary(src); Success((BinaryValue(v), rest))
    case PairType =>
      var (n, s) :- GetText(ok, src);
      var (v, rest) :- GetText(ok, s);
      Success((PairValue(UserProperty(n, v)), rest))
  }

  predicate HasType(v: Value, t: WireType) {
    match v
    case FlagValue(_) => t.FlagType?
    case U16Value(_) => t.U16Type?
    case U32Value(_) => t.U32Type?
    case VarintValue(_) => t.VarintType?
    case TextValue(_) => t.TextType?
    case TopicValue(_) => t.TopicType?
    case BinaryValue(_) => t.BinaryType?
    case PairValue(_) => t.PairType?
  }

  predicate WellFormedValue(ok: Bytes -> bool, v: Value) {
    match v
    case VarintValue(n) => n < Varint.LIMIT
    case TextValue(t) => ok(t)
    case TopicValue(t) => TopicFilter.ValidTopic(ok, t)
    case PairValue(u) => WellFormedUser(ok, u)
    case _ => true
  }

  function ValueSize(v: Value): nat {
    match v
    case FlagValue(_) => 1
    case U16Value(_) => 2
    case U32Value(_) => 4
    case VarintValue(n) => |Varint.Digits(n)|
    case TextValue(t) => 2 + |t|
    case TopicValue(t) => 2 + |t|
    case BinaryValue(t) => 2 + |t|
    case PairValue(u) => 4 + |u.name| + |u.value|
  }

  function ValueOps(v: Value): Encoded {
    match v
    case FlagValue(b) => Success([Put([if b then 1 else 0])])
    case U16Value(n) => Success([Put(U16Bytes(n))])
    case U32Value(n) => Success([Put(U32Bytes(n))])
    case VarintValue(n) =>
      (match Varint.Encode(n) case Some(b) => Success([Put(b)]) case None => Failure(SubscriptionIdTooHigh))
    case TextValue(t) => Success([TextOp(t)])
    case TopicValue(t) => Success([TextOp(t)])
    case BinaryValue(t) => Success([TextOp(t)])
    case PairValue(u) => Success([TextOp(u.name), TextOp(u.value)])
  }

  /** The property that an identifier and a value of its type denote. */
  function FromWire(id: byte, v: Value): (r: Result<Property, DecodeError>)
    requires TypeOf(id).Some? && HasType(v, TypeOf(id).value)
  {
    match v
    case FlagValue(b) =>
      Success(
        if id == 0x01 then PayloadIsUtf8(b)
        else if id == 0x17 then RequestProblem(b)
        else if id == 0x19 then RequestResponse(b)
        else if id == 0x24 then MaximumQoS(if b then AtLeastOnce else AtMostOnce)
        else if id == 0x25 then RetainAvailable(b)
        else if id == 0x28 then WildcardAvailable(b)
        else if id == 0x29 then SubscriptionIdsAvailable(b)
        else SharedAvailable(b))
    case U16Value(n) =>
      if id == 0x13 then Success(ServerKeepAlive(KeepAliveFromU16(n)))
      else if id == 0x22 then Success(TopicAliasMaximum(n))
      else if n == 0 then Failure(ZeroValue)
      else if id == 0x21 then Success(ReceiveMaximum(n))
      else Success(TopicAlias(n))
    case U32Value(n) =>
      if id == 0x02 then Success(MessageExpiry(n))
      else if id == 0x11 then Success(Expiry(ExpiryFromU32(n)))
      else if id == 0x18 then Success(WillDelay(n))
      else if n == 0 then Failure(ZeroValue)
      else Success(MaximumPacketSize(n))
    case VarintValue(n) => if n == 0 then Failure(ZeroValue) else Success(SubscriptionId(n))
    case TextValue(t) =>
      Success(
        if id == 0x03 then ContentType(t)
        else if id == 0x12 then AssignedClientId(t)
        else if id == 0x15 then AuthMethod(t)
        else if id == 0x1A then ResponseInformation(t)
        else if id == 0x1C then ServerReference(t)
        else ReasonString(t))
    case TopicValue(t) => Success(ResponseTopic(t))
    case BinaryValue(t) => Success(if id == 0x09 then CorrelationData(t) else AuthData(t))
    case PairValue(u) => Success(User(u))
  }

  /** The identifier and value that `PropertyRef::encode` writes. */
  function ToWire(p: Property): (byte, Value) {
    match p
    case PayloadIsUtf8(v) => (0x01, FlagValue(v))
    case MessageExpiry(v) => (0x02, U32Value(v))
    case ContentType(v) => (0x03, TextValue(v))
    case ResponseTopic(v) => (0x08, TopicValue(v))
    case CorrelationData(v) => (0x09, BinaryValue(v))
    case SubscriptionId(v) => (0x0B, VarintValue(v))
    case Expiry(v) => (0x11, U32Value(ExpiryToU32(v)))
    case ConnectSessionExpiry(v) => (0x11, U32Value(ExpiryToU32(v)))
    case AssignedClientId(v) => (0x12, TextValue(v))
    case ServerKeepAlive(v) => (0x13, U16Value(KeepAliveToU16(v)))
    case AuthMethod(v) => (0x15, TextValue(v))
    case AuthData(v) => (0x16, BinaryValue(v))
    case RequestProblem(v) => (0x17, FlagValue(v))
    case WillDelay(v) => (0x18, U32Value(v))
    case RequestResponse(v) => (0x19, FlagValue(v))
    case ResponseInformation(v) => (0x1A, TextValue(v))
    case ServerReference(v) => (0x1C, TextValue(v))
    case ReasonString(v) => (0x1F, TextValue(v))
    case ReceiveMaximum(v) => (0x21, U16Value(v))
    case TopicAliasMaximum(v) => (0x22, U16Value(v))
    case TopicAlias(v) => (0x23, U16Value(v))
    case MaximumQoS(v) => (0x24, FlagValue(v == AtLeastOnce))
    case RetainAvailable(v) => (0x25, FlagValue(v))
    case User(v) => (0x26, PairValue(v))
    case MaximumPacketSize(v) => (0x27, U32Value(v))
    case WildcardAvailable(v) => (0x28, FlagValue(v))
    case SubscriptionIdsAvailable(v) => (0x29, FlagValue(v))
    case SharedAvailable(v) => (0x2A, FlagValue(v))
  }

  /** `Property::decode`. */
  function DecodeOne(ok: Bytes -> bool, src: Bytes): (r: Read<Property>)
    ensures r.Success? ==> |r.value.1| < |src|
  {
    var (id, s) :- GetU8(src);
    match TypeOf(id)
    case None => Failure(UnrecognizedProperty)
    case Some(t) =>
      var (v, rest) :- GetValue(ok, t, s);
      match FromWire(id, v)
      case Failure(e) => Failure(e)
      case Success(p) => Success((p, rest))
  }

  /** The value that a receiver assumes for a property that is not on the wire. */
  predicate IsDefault(p: Property) {
    match p
    case PayloadIsUtf8(v) => !v
    case ConnectSessionExpiry(v) => v == Duration(0)
    case RequestProblem(v) => v
    case WillDelay(v) => v == 0
    case RequestResponse(v) => !v
    case ReceiveMaximum(v) => v == 0xFFFF
    case TopicAliasMaximum(v) => v == 0
    case MaximumQoS(v) => v == ExactlyOnce
    case RetainAvailable(v) => v
    case MaximumPacketSize(v) => v == 0xFFFF_FFFF
    case WildcardAvailable(v) => v
    case SubscriptionIdsAvailable(v) => v
    case SharedAvailable(v) => v
    case _ => false
  }

  /** `PropertyRef::encode`: a property at its default value writes nothing. */
  function EncodeOne(p: Property): Encoded {
    if IsDefault(p) then Success([])
    else
      var (id, v) := ToWire(p);
      var ops :- ValueOps(v);
      Success([Put([id])] + ops)
  }

  predicate WellFormedExpiry(e: SessionExpiry) {
    e != Duration(0xFFFF_FFFF)
  }

  predicate WellFormedUser(ok: Bytes -> bool, u: UserProperty) {
    ok(u.name) && ok(u.value)
  }

  /** What the type of a property does not already guarantee about its value. */
  predicate WellFormed(ok: Bytes -> bool, p: Property) {
    match p
    case Expiry(v) => WellFormedExpiry(v)
    case ConnectSessionExpiry(v) => WellFormedExpiry(v)
    case _ => WellFormedValue(ok, ToWire(p).1)
  }

  /** The form in which a property comes back. */
  function OnWire(p: Property): Property {
    match p case ConnectSessionExpiry(v) => Expiry(v) case _ => p
  }

  function Size(p: Property): nat {
    if IsDefault(p) then 0 else 1 + ValueSize(ToWire(p).1)
  }

  lemma OneOp(op: Op)
    ensures OpsBytes([op]) == op.bytes
  {
  }

  lemma ValueBack(ok: Bytes -> bool, t: WireType, v: Value, rest: Bytes)
    requires WellFormedValue(ok, v) && HasType(v, t)
    ensures ValueOps(v).Success?
    ensures GetValue(ok, t, OpsBytes(ValueOps(v).value) + rest) == Success((v, rest))
    ensures |OpsBytes(ValueOps(v).value)| == ValueSize(v)
  {
    var ops := ValueOps(v).value;
    OneOp(ops[0]);
    match v
    case FlagValue(b) => U8Back(if b then 1 else 0, rest);
    case U16Value(n) => U16Back(n, rest);
    case U32Value(n) => U32Back(n, rest);
    case VarintValue(n) => VarintBack(n, rest);
    case TextValue(x) => TextBack(ok, x, rest);
    case TopicValue(x) => TopicBack(ok, x, rest);
    case BinaryValue(x) => BinaryBack(x, rest);
    case PairValue(u) =>
      OpsConcat([ops[0]], [ops[1]]);
      OneOp(ops[1]);
      assert ops == [ops[0]] + [ops[1]];
      assert OpsBytes(ops) + rest == TextBytes(u.name) + (TextBytes(u.value) + rest);
      TextBack(ok, u.name, TextBytes(u.value) + rest);
      TextBack(ok, u.value, rest);
  }

  /** `FromWire` undoes `ToWire`. */
  lemma WireBack(ok: Bytes -> bool, p: Property)
    requires WellFormed(ok, p) && !IsDefault(p)
    ensures var (id, v) := ToWire(p);
      && WellFormedValue(ok, v)
      && TypeOf(id).Some? && HasType(v, TypeOf(id).value)
      && FromWire(id, v) == Success(OnWire(p))
  {
  }

  /** A well-formed property that is not at its default comes back from the wire, and nothing after it is touched. */
  lemma OneBack(ok: Bytes -> bool, p: Property, rest: Bytes)
    requires WellFormed(ok, p) && !IsDefault(p)
    ensures EncodeOne(p).Success?
    ensures DecodeOne(ok, OpsBytes(EncodeOne(p).value) + rest) == Success((OnWire(p), rest))
    ensures |OpsBytes(EncodeOne(p).value)| == Size(p)
  {
    hide ToWire, IsDefault, TypeOf, FromWire, GetValue, ValueOps, ValueSize, OnWire;
    WireBack(ok, p);
    var (id, v) := ToWire(p);
    ValueBack(ok, TypeOf(id).value, v, rest);
    var ops := ValueOps(v).value;
    OpsConcat([Put([id])], ops);
    OneOp(Put([id]));
    assert OpsBytes(EncodeOne(p).value) + rest == [id] + (OpsBytes(ops) + rest);
    U8Back(id, OpsBytes(ops) + rest);
  }

  lemma FromWireIsWellFormed(ok: Bytes -> bool, id: byte, v: Value)
    requires TypeOf(id).Some? && HasType(v, TypeOf(id).value) && WellFormedValue(ok, v)
    ensures var r := FromWire(id, v);
      r.Success? ==> WellFormed(ok, r.value) && !r.value.ConnectSessionExpiry? && Size(r.value) <= 1 + ValueSize(v)
  {
  }

  /** What a decoder produces is well-formed, and writing it again takes no more room than it took on the wire. */
  lemma DecodedIsWellFormed(ok: Bytes -> bool, src: Bytes)
    ensures var r := DecodeOne(ok, src);
      r.Success? ==>
        && WellFormed(ok, r.value.0)
        && !r.value.0.ConnectSessionExpiry?
        && |src| >= Size(r.value.0) + |r.value.1|
  {
    var r := DecodeOne(ok, src);
    if r.Success? {
      var (id, s) := GetU8(src).value;
      FromWireIsWellFormed(ok, id, GetValue(ok, TypeOf(id).value, s).value.0);
    }
  }
}
