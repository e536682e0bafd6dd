/**
 * The bytes on the wire, written out: sections 1.5, 2.1, 2.2.2 and 3 of MQTT Version 5.0.
 *
 * The functions give the layout of each packet in literal bytes and share nothing with the encoder or the decoder. The
 * theorems say that encoded packets have that layout, and that packets laid out so are decoded.
 */
module Layout {
  import opened Wrappers
  import opened Bytes
  import opened Packets
  import opened Wire
  import opened Properties
  import opened PropertyLists
  import opened Codec
  import opened RoundTrip
  import Varint

  // --- Numbers and strings ---

  /** Eight bits, most significant first. */
  function Bits(b7: bool, b6: bool, b5: bool, b4: bool, b3: bool, b2: bool, b1: bool, b0: bool): byte {
    (if b7 then 128 else 0) + (if b6 then 64 else 0) + (if b5 then 32 else 0) + (if b4 then 16 else 0)
    + (if b3 then 8 else 0) + (if b2 then 4 else 0) + (if b1 then 2 else 0) + (if b0 then 1 else 0)
  }

  /** Section 1.5.2: high byte first. */
  function Word(n: u16): Bytes {
    [n / 256, n % 256]
  }

  /** Section 1.5.3: highest byte first. */
  function Long(n: u32): Bytes {
    [n / 16777216, n / 65536 % 256, n / 256 % 256, n % 256]
  }

  /** Section 1.5.5: seven bits to a byte, lowest first, the eighth bit set on all but the last. */
  function Length(n: nat): Bytes {
    if n < 128 then [n]
    else if n < 16384 then [n % 128 + 128, n / 128]
    else if n < 2097152 then [n % 128 + 128, n / 128 % 128 + 128, n / 16384]
    else if n < 268435456 then [n % 128 + 128, n / 128 % 128 + 128, n / 16384 % 128 + 128, n / 2097152]
    else []
  }

  /** Sections 1.5.4 and 1.5.6: two bytes of length, then the content. */
  function Str(t: Text): Bytes {
    Word(|t|) + t
  }

  /** A list of properties, or a body, behind its length. */
  function Sized(b: Bytes): Bytes {
    Length(|b|) + b
  }

  function FlagBit(b: bool): byte {
    if b then 1 else 0
  }

  function ExpirySeconds(e: SessionExpiry): u32 {
    match e case Infinite => 4294967295 case Duration(n) => n
  }

  // --- Properties ---

  /** Section 2.2.2.2: the identifier and value of every property. */
  function PropertyBytes(p: Property): Bytes {
    match p
    case PayloadIsUtf8(v) => [0x01] + [FlagBit(v)]
    case MessageExpiry(v) => [0x02] + Long(v)
    case ContentType(v) => [0x03] + Str(v)
    case ResponseTopic(v) => [0x08] + Str(v)
    case CorrelationData(v) => [0x09] + Str(v)
    case SubscriptionId(v) => [0x0B] + Length(v)
    case Expiry(v) => [0x11] + Long(ExpirySeconds(v))
    case ConnectSessionExpiry(v) => [0x11] + Long(ExpirySeconds(v))
    case AssignedClientId(v) => [0x12] + Str(v)
    case ServerKeepAlive(v) => [0x13] + Word(match v case Off => 0 case Every(n) => n)
    case AuthMethod(v) => [0x15] + Str(v)
    case AuthData(v) => [0x16] + Str(v)
    case RequestProblem(v) => [0x17] + [FlagBit(v)]
    case WillDelay(v) => [0x18] + Long(v)
    case RequestResponse(v) => [0x19] + [FlagBit(v)]
    case ResponseInformation(v) => [0x1A] + Str(v)
    case ServerReference(v) => [0x1C] + Str(v)
    case ReasonString(v) => [0x1F] + Str(v)
    case ReceiveMaximum(v) => [0x21] + Word(v)
    case TopicAliasMaximum(v) => [0x22] + Word(v)
    case TopicAlias(v) => [0x23] + Word(v)
    case MaximumQoS(v) => [0x24] + [FlagBit(v == AtLeastOnce)]
    case RetainAvailable(v) => [0x25] + [FlagBit(v)]
    case User(v) => [0x26] + (Str(v.name) + Str(v.value))
    case MaximumPacketSize(v) => [0x27] + Long(v)
    case WildcardAvailable(v) => [0x28] + [FlagBit(v)]
    case SubscriptionIdsAvailable(v) => [0x29] + [FlagBit(v)]
    case SharedAvailable(v) => [0x2A] + [FlagBit(v)]
  }

  function OptStr(id: byte, o: Option<Text>): Bytes {
    if o.Some? then [id] + Str(o.value) else []
  }

  function OptLong(id: byte, o: Option<u32>): Bytes {
    if o.Some? then [id] + Long(o.value) else []
  }

  function UserBytes(users: seq<UserProperty>): Bytes {
    if users == [] then [] else [0x26] + (Str(users[0].name) + Str(users[0].value)) + UserBytes(users[1..])
  }

  function SubscriptionIdBytes(ids: seq<NonZeroU32>): Bytes {
    if ids == [] then [] else [0x0B] + Length(ids[0]) + SubscriptionIdBytes(ids[1..])
  }

  // --- Packets ---

  function PublishProps(p: PublishProperties): Bytes {
    (if p.payloadIsUtf8 then [0x01, 0x01] else []) +
    (OptLong(0x02, p.messageExpiry) +
    ((if p.topicAlias.Some? then [0x23] + Word(p.topicAlias.value) else []) +
    (OptStr(0x08, p.responseTopic) +
    (OptStr(0x09, p.correlationData) +
    (UserBytes(p.users) +
    (SubscriptionIdBytes(p.subscriptionIds) +
    OptStr(0x03, p.contentType)))))))
  }

  function WillProps(w: Will): Bytes {
    (if w.delay != 0 then [0x18] + Long(w.delay) else []) +
    ((if w.properties.payloadIsUtf8 then [0x01, 0x01] else []) +
    (OptLong(0x02, w.properties.messageExpiry) +
    (OptStr(0x03, w.properties.contentType) +
    (OptStr(0x08, w.properties.responseTopic) +
    (OptStr(0x09, w.properties.correlationData) +
    UserBytes(w.properties.users))))))
  }

  function ConnectProps(p: ConnectProperties): Bytes {
    (if p.sessionExpiry != Duration(0) then [0x11] + Long(ExpirySeconds(p.sessionExpiry)) else []) +
    ((if p.receiveMaximum != 65535 then [0x21] + Word(p.receiveMaximum) else []) +
    ((if p.maximumPacketSize != 4294967295 then [0x27] + Long(p.maximumPacketSize) else []) +
    ((if p.topicAliasMaximum != 0 then [0x22] + Word(p.topicAliasMaximum) else []) +
    ((if p.requestResponse then [0x19, 0x01] else []) +
    ((if !p.requestProblem then [0x17, 0x00] else []) +
    (UserBytes(p.users) +
    (match p.authentication
     case None => []
     case Some(a) => [0x15] + Str(a.scheme) + OptStr(0x16, a.data))))))))
  }

  function DisconnectProps(p: DisconnectProperties): Bytes {
    (if p.sessionExpiry.Some? then [0x11] + Long(ExpirySeconds(p.sessionExpiry.value)) else []) +
    (OptStr(0x1F, p.reasonString) + (UserBytes(p.users) + OptStr(0x1C, p.serverReference)))
  }

  function PubAckProps(p: PubAckProperties): Bytes {
    OptStr(0x1F, p.reasonString) + UserBytes(p.users)
  }

  function SubscribeProps(s: Subscribe): Bytes {
    (if s.subscriptionId.Some? then [0x0B] + Length(s.subscriptionId.value) else []) + UserBytes(s.users)
  }

  function SubscriptionBytes(to: seq<SubscribeTo>): Bytes
    requires FiltersFit(to)
  {
    if to == [] then []
    else
      var o := to[0].options;
      Str(to[0].filter.text)
      + [Bits(false, false, o.retainHandling.DoNotSend?, o.retainHandling.SendIfNew?, o.retainAsPublished, o.noLocal,
              o.maximumQoS.ExactlyOnce?, o.maximumQoS.AtLeastOnce?)]
      + SubscriptionBytes(to[1..])
  }

  function WillBytes(w: Option<Will>): Bytes {
    match w
    case None => []
    case Some(will) => Sized(WillProps(will)) + Str(will.topic) + (if |will.payload| <= 65535 then Str(will.payload) else [])
  }

  function MaybeStr(o: Option<Text>): Bytes {
    if o.Some? then Str(o.value) else []
  }

  /** The name MQTT, version 5, flags and keep alive. */
  function ConnectStart(c: Connect): Bytes {
    var w := c.will;
    [0x00, 0x04, 0x4D, 0x51, 0x54, 0x54, 0x05]
    + [Bits(c.username.Some?, c.password.Some?, w.Some? && w.value.retain,
            w.Some? && w.value.qos.ExactlyOnce?, w.Some? && w.value.qos.AtLeastOnce?, w.Some?, c.cleanStart, false)]
    + Word(match c.keepAlive case Off => 0 case Every(n) => n)
  }

  function Body(p: Packet): Bytes
    requires Encodable(p)
  {
    match p
    case ConnectPacket(c) =>
      ConnectStart(c)
      + (Sized(ConnectProps(c.properties))
      + ((if c.clientId.Some? then Str(c.clientId.value) else [0x00, 0x00])
      + (WillBytes(c.will) + (MaybeStr(c.username) + MaybeStr(c.password)))))
    case PublishPacket(m) =>
      Str(m.topic)
      + (match m.delivery case Once => [] case Acked(id, _) => Word(id) case Assured(id, _) => Word(id))
      + Sized(PublishProps(m.properties)) + m.payload
    case PubAckPacket(a) =>
      if a.properties != PubAckProperties(None, []) then Word(a.id) + [a.reason] + Sized(PubAckProps(a.properties))
      else if a.reason != 0x00 then Word(a.id) + [a.reason]
      else Word(a.id)
    case SubscribePacket(s) => Word(s.id) + Sized(SubscribeProps(s)) + SubscriptionBytes(s.to)
    case DisconnectPacket(d) =>
      if d.properties != DisconnectProperties(None, None, [], None) then [d.reason] + Sized(DisconnectProps(d.properties))
      else if d.reason != 0x00 then [d.reason]
      else []
    case PingReqPacket => []
    case PingRespPacket => []
  }

  function First(p: Packet): byte {
    match p
    case ConnectPacket(_) => 0x10
    case PublishPacket(m) =>
      Bits(false, false, true, true,
           (m.delivery.Acked? || m.delivery.Assured?) && m.delivery.dup, m.delivery.Assured?, m.delivery.Acked?, m.retain)
    case PubAckPacket(_) => 0x40
    case SubscribePacket(_) => 0x82
    case PingReqPacket => 0xC0
    case PingRespPacket => 0xD0
    case DisconnectPacket(_) => 0xE0
  }

  function PacketBytes(p: Packet): Bytes
    requires Encodable(p)
  {
    [First(p)] + Sized(Body(p))
  }

  // --- The encoder writes this ---

  lemma NumbersLaidOut(n: nat)
    ensures n < 65536 ==> U16Bytes(n) == Word(n)
    ensures n < 4294967296 ==> U32Bytes(n) == Long(n)
  {
    if n < 4294967296 {
      LowHalf(n);
      assert U32Bytes(n) == U16Bytes(n / 65536) + U16Bytes(n % 65536);
    }
  }

  lemma LowHalf(n: nat)
    ensures n / 65536 / 256 == n / 16777216
    ensures n % 65536 / 256 == n / 256 % 256 && n % 65536 % 256 == n % 256
  {
    HighByte(n);
    LowByte(n);
  }

  lemma HighByte(n: nat)
    ensures n / 65536 / 256 == n / 16777216
  {
    var q, r := n / 16777216, n % 16777216;
    assert n == 65536 * (256 * q + r / 65536) + r % 65536;
    assert n / 65536 == 256 * q + r / 65536;
  }

  lemma LowByte(n: nat)
    ensures n % 65536 / 256 == n / 256 % 256 && n % 65536 % 256 == n % 256
  {
    var q, r := n / 65536, n % 65536;
    assert n == 256 * (256 * q + r / 256) + r % 256;
    assert n / 256 == 256 * q + r / 256;
  }

  lemma Quotients(n: nat)
    ensures n / 128 / 128 == n / 16384 && n / 128 / 128 / 128 == n / 2097152
  {
  }

  lemma LengthLaidOut(n: nat)
    ensures Varint.Encode(n) == if n < 268435456 then Some(Length(n)) else None
  {
    if n < 268435456 {
      hide Varint.Digits;
      var a, b, c := n / 128, n / 128 / 128, n / 128 / 128 / 128;
      Quotients(n);
      Varint.DigitsNext(n);
      Varint.DigitsNext(a);
      Varint.DigitsNext(b);
      Varint.DigitsNext(c);
      assert a < 128 ==> Varint.Digits(a) == [a];
      assert b < 128 ==> Varint.Digits(b) == [b];
      assert Varint.Digits(c) == [c];
      if n >= 2097152 {
        assert Varint.Digits(n) == [n % 128 + 128] + ([a % 128 + 128] + ([b % 128 + 128] + [c])) == Length(n);
      } else if n >= 16384 {
        assert Varint.Digits(n) == [n % 128 + 128] + ([a % 128 + 128] + [b]) == Length(n);
      } else if n >= 128 {
        assert Varint.Digits(n) == [n % 128 + 128] + [a] == Length(n);
      }
    }
  }

  lemma StrLaidOut(t: Text)
    ensures TextBytes(t) == Str(t)
  {
  }

  lemma ValueLaidOut(v: Value)
    requires ValueOps(v).Success?
    ensures OpsBytes(ValueOps(v).value) ==
      match v
      case FlagValue(b) => [FlagBit(b)]
      case U16Value(n) => Word(n)
      case U32Value(n) => Long(n)
      case VarintValue(n) => Length(n)
      case TextValue(t) => Str(t)
      case TopicValue(t) => Str(t)
      case BinaryValue(t) => Str(t)
      case PairValue(u) => Str(u.name) + Str(u.value)
  {
    var ops := ValueOps(v).value;
    OneOp(ops[0]);
    match v
    case U32Value(n) => NumbersLaidOut(n);
    case VarintValue(n) => LengthLaidOut(n);
    case PairValue(u) =>
      assert ops == [ops[0]] + [ops[1]];
      OpsConcat([ops[0]], [ops[1]]);
      OneOp(ops[1]);
    case _ =>
  }

  lemma PropertyLaidOut(p: Property)
    requires EncodeOne(p).Success?
    ensures OpsBytes(EncodeOne(p).value) == if IsDefault(p) then [] else PropertyBytes(p)
  {
    hide ValueOps, Str, Word, Long, Length, FlagBit;
    if !IsDefault(p) {
      var (id, v) := ToWire(p);
      ValueLaidOut(v);
      OpsConcat([Put([id])], ValueOps(v).value);
      OneOp(Put([id]));
    }
  }

  /** The properties of a list that are not at their defaults. */
  function WireList(ps: seq<Property>): Bytes {
    if ps == [] then [] else (if IsDefault(ps[0]) then [] else PropertyBytes(ps[0])) + WireList(ps[1..])
  }

  lemma {:induction false} EachLaidOut(ps: seq<Property>)
    requires EncodeEach(ps).Success?
    ensures OpsBytes(EncodeEach(ps).value) == WireList(ps)
  {
    hide EncodeOne, PropertyBytes;
    if ps != [] {
      EachLaidOut(ps[1..]);
      PropertyLaidOut(ps[0]);
      OpsConcat(EncodeOne(ps[0]).value, EncodeEach(ps[1..]).value);
    }
  }

  lemma ListLaidOut(ps: seq<Property>)
    requires EncodeList(ps).Success?
    ensures OpsBytes(EncodeList(ps).value) == Sized(WireList(ps))
  {
    hide EncodeEach, WireList;
    var ops := EncodeEach(ps).value;
    EachLaidOut(ps);
    LengthLaidOut(|OpsBytes(ops)|);
    var b := Varint.Encode(|OpsBytes(ops)|).value;
    OpsConcat([Put(b)], ops);
    OneOp(Put(b));
  }

  lemma {:induction false} WireConcat(a: seq<Property>, b: seq<Property>)
    ensures WireList(a + b) == WireList(a) + WireList(b)
  {
    hide PropertyBytes, IsDefault;
    if a == [] {
      assert a + b == b;
    } else {
      WireConcat(a[1..], b);
      assert (a + b)[1..] == a[1..] + b && (a + b)[0] == a[0];
      var head := if IsDefault(a[0]) then [] else PropertyBytes(a[0]);
      assert head + (WireList(a[1..]) + WireList(b)) == head + WireList(a[1..]) + WireList(b);
    }
  }

  /** A property that may be absent, then the rest. */
  lemma WireHead(first: seq<Property>, rest: seq<Property>)
    requires |first| <= 1
    ensures WireList(first + rest) == (if first == [] || IsDefault(first[0]) then [] else PropertyBytes(first[0])) + WireList(rest)
  {
    hide PropertyBytes, IsDefault;
    WireConcat(first, rest);
    if first != [] {
      assert first[1..] == [];
    }
  }

  lemma {:induction false} UsersLaidOut(users: seq<UserProperty>)
    ensures WireList(UserList(users)) == UserBytes(users)
  {
    if users != [] {
      UsersLaidOut(users[1..]);
      assert UserList(users)[1..] == UserList(users[1..]);
    }
  }

  lemma {:induction false} IdsLaidOut(ids: seq<NonZeroU32>)
    ensures WireList(IdList(ids)) == SubscriptionIdBytes(ids)
  {
    if ids != [] {
      IdsLaidOut(ids[1..]);
      assert IdList(ids)[1..] == IdList(ids[1..]);
    }
  }

  /** A string property that may be absent, then the rest. */
  lemma TextHead(o: Option<Text>, rest: seq<Property>)
    ensures WireList(MaybeContentType(o) + rest) == OptStr(0x03, o) + WireList(rest)
    ensures WireList(MaybeResponseTopic(o) + rest) == OptStr(0x08, o) + WireList(rest)
    ensures WireList(MaybeCorrelationData(o) + rest) == OptStr(0x09, o) + WireList(rest)
    ensures WireList(MaybeReasonString(o) + rest) == OptStr(0x1F, o) + WireList(rest)
  {
    hide WireList, Str;
    WireHead(MaybeContentType(o), rest);
    WireHead(MaybeResponseTopic(o), rest);
    WireHead(MaybeCorrelationData(o), rest);
    WireHead(MaybeReasonString(o), rest);
  }

  /** The properties that a message and a will share at their beginning. */
  lemma MessageHead(utf8: bool, expiry: Option<u32>, rest: seq<Property>)
    ensures WireList([PayloadIsUtf8(utf8)] + rest) == (if utf8 then [0x01, 0x01] else []) + WireList(rest)
    ensures WireList(MaybeMessageExpiry(expiry) + rest) == OptLong(0x02, expiry) + WireList(rest)
  {
    hide WireList, Long;
    WireHead([PayloadIsUtf8(utf8)], rest);
    WireHead(MaybeMessageExpiry(expiry), rest);
  }

  lemma PublishPropsLaidOut(p: PublishProperties)
    ensures WireList(PublishList(p)) == PublishProps(p)
  {
    hide WireList, UserBytes, SubscriptionIdBytes, OptStr, OptLong, Word, Str;
    var l7 := MaybeContentType(p.contentType);
    var l6 := IdList(p.subscriptionIds) + l7;
    var l5 := UserList(p.users) + l6;
    var l4 := MaybeCorrelationData(p.correlationData) + l5;
    var l3 := MaybeResponseTopic(p.responseTopic) + l4;
    var l2 := MaybeTopicAlias(p.topicAlias) + l3;
    var l1 := MaybeMessageExpiry(p.messageExpiry) + l2;
    MessageHead(p.payloadIsUtf8, p.messageExpiry, l1);
    MessageHead(p.payloadIsUtf8, p.messageExpiry, l2);
    WireHead(MaybeTopicAlias(p.topicAlias), l3);
    TextHead(p.responseTopic, l4);
    TextHead(p.correlationData, l5);
    WireConcat(UserList(p.users), l6);
    WireConcat(IdList(p.subscriptionIds), l7);
    ContentTypeLast(p.contentType);
    UsersLaidOut(p.users);
    IdsLaidOut(p.subscriptionIds);
  }

  lemma ContentTypeLast(o: Option<Text>)
    ensures WireList(MaybeContentType(o)) == OptStr(0x03, o)
  {
    hide Str;
    WireLast(MaybeContentType(o));
  }

  lemma WireLast(last: seq<Property>)
    requires |last| <= 1
    ensures WireList(last) == if last == [] || IsDefault(last[0]) then [] else PropertyBytes(last[0])
  {
    hide PropertyBytes, IsDefault;
    WireHead(last, []);
    assert last + [] == last;
  }

  lemma WillPropsLaidOut(w: Will)
    ensures WireList(WillList(w)) == WillProps(w)
  {
    hide WireList, UserBytes, OptStr, OptLong, Long;
    var p := w.properties;
    var l6 := UserList(p.users);
    var l5 := MaybeCorrelationData(p.correlationData) + l6;
    var l4 := MaybeResponseTopic(p.responseTopic) + l5;
    var l3 := MaybeContentType(p.contentType) + l4;
    var l2 := MaybeMessageExpiry(p.messageExpiry) + l3;
    var l1 := [PayloadIsUtf8(p.payloadIsUtf8)] + l2;
    WireHead([WillDelay(w.delay)], l1);
    MessageHead(p.payloadIsUtf8, p.messageExpiry, l2);
    MessageHead(p.payloadIsUtf8, p.messageExpiry, l3);
    TextHead(p.contentType, l4);
    TextHead(p.responseTopic, l5);
    TextHead(p.correlationData, l6);
    UsersLaidOut(p.users);
  }

  lemma ConnectTailLaidOut(users: seq<UserProperty>, a: Option<Authentication>)
    ensures WireList(UserList(users) + (MaybeAuthMethod(AuthenticationMethod(a)) + MaybeAuthData(AuthenticationData(a)))) ==
      UserBytes(users) + (match a case None => [] case Some(x) => [0x15] + Str(x.scheme) + OptStr(0x16, x.data))
  {
    hide WireList;
    var l8 := MaybeAuthData(AuthenticationData(a));
    var l7 := MaybeAuthMethod(AuthenticationMethod(a)) + l8;
    WireConcat(UserList(users), l7);
    WireHead(MaybeAuthMethod(AuthenticationMethod(a)), l8);
    WireLast(l8);
    UsersLaidOut(users);
  }

  lemma ConnectFlagsLaidOut(p: ConnectProperties, rest: seq<Property>)
    ensures WireList([RequestResponse(p.requestResponse)] + ([RequestProblem(p.requestProblem)] + rest)) ==
      (if p.requestResponse then [0x19, 0x01] else []) + ((if !p.requestProblem then [0x17, 0x00] else []) + WireList(rest))
  {
    hide WireList;
    WireHead([RequestResponse(p.requestResponse)], [RequestProblem(p.requestProblem)] + rest);
    WireHead([RequestProblem(p.requestProblem)], rest);
  }

  lemma ConnectPropsLaidOut(p: ConnectProperties)
    ensures WireList(ConnectList(p)) == ConnectProps(p)
  {
    hide WireList, UserBytes, OptStr, Str, Long, Word;
    var l6 := UserList(p.users) + (MaybeAuthMethod(AuthenticationMethod(p.authentication)) + MaybeAuthData(AuthenticationData(p.authentication)));
    var l4 := [RequestResponse(p.requestResponse)] + ([RequestProblem(p.requestProblem)] + l6);
    var l3 := [TopicAliasMaximum(p.topicAliasMaximum)] + l4;
    var l2 := [MaximumPacketSize(p.maximumPacketSize)] + l3;
    var l1 := [ReceiveMaximum(p.receiveMaximum)] + l2;
    ConnectTailLaidOut(p.users, p.authentication);
    ConnectFlagsLaidOut(p, l6);
    WireHead([TopicAliasMaximum(p.topicAliasMaximum)], l4);
    WireHead([MaximumPacketSize(p.maximumPacketSize)], l3);
    WireHead([ReceiveMaximum(p.receiveMaximum)], l2);
    WireHead([ConnectSessionExpiry(p.sessionExpiry)], l1);
  }

  lemma DisconnectPropsLaidOut(p: DisconnectProperties)
    ensures WireList(DisconnectList(p)) == DisconnectProps(p)
  {
    hide WireList, UserBytes, OptStr, Long;
    var l3 := MaybeServerReference(p.serverReference);
    var l2 := UserList(p.users) + l3;
    var l1 := MaybeReasonString(p.reasonString) + l2;
    WireHead(MaybeExpiry(p.sessionExpiry), l1);
    TextHead(p.reasonString, l2);
    WireConcat(UserList(p.users), l3);
    ServerReferenceLast(p.serverReference);
    UsersLaidOut(p.users);
  }

  lemma ServerReferenceLast(o: Option<Text>)
    ensures WireList(MaybeServerReference(o)) == OptStr(0x1C, o)
  {
    hide Str;
    WireLast(MaybeServerReference(o));
  }

  lemma PubAckPropsLaidOut(p: PubAckProperties)
    ensures WireList(PubAckList(p)) == PubAckProps(p)
  {
    hide WireList, UserBytes, OptStr;
    TextHead(p.reasonString, UserList(p.users));
    UsersLaidOut(p.users);
  }

  lemma SubscribePropsLaidOut(s: Subscribe)
    ensures WireList(SubscribeList(s.subscriptionId, s.users)) == SubscribeProps(s)
  {
    hide WireList;
    WireHead(MaybeSubscriptionId(s.subscriptionId), UserList(s.users));
    UsersLaidOut(s.users);
  }

  lemma PublishLaidOut(m: Publish)
    requires EncodePublish(m).Success?
    ensures OpsBytes(EncodePublish(m).value) == Body(PublishPacket(m))
  {
    hide EncodeList, PublishList, PublishProps, Sized;
    PublishForm(m);
    ListLaidOut(PublishList(m.properties));
    PublishPropsLaidOut(m.properties);
  }

  lemma PubAckLaidOut(a: PubAck)
    requires EncodePubAck(a).Success?
    ensures OpsBytes(EncodePubAck(a).value) == Body(PubAckPacket(a))
  {
    hide EncodeList, PubAckList, PubAckProps, Sized, OpsBytes;
    var idOp, reasonOp := Put(U16Bytes(a.id)), Put([a.reason]);
    if a.properties != NO_PUBACK_PROPERTIES {
      ListLaidOut(PubAckList(a.properties));
      PubAckPropsLaidOut(a.properties);
      TwoOpsThen(idOp, reasonOp, EncodeList(PubAckList(a.properties)).value);
    } else if a.reason != SUCCESS {
      OneOp(idOp);
      OneOp(reasonOp);
      OpsConcat([idOp], [reasonOp]);
    } else {
      OneOp(idOp);
      assert [idOp] + [] == [idOp];
    }
  }

  lemma TwoOpsThen(first: Op, second: Op, rest: seq<Op>)
    ensures OpsBytes([first] + ([second] + rest)) == first.bytes + second.bytes + OpsBytes(rest)
  {
    OneOp(first);
    OneOp(second);
    OpsConcat([second], rest);
    OpsConcat([first], [second] + rest);
  }

  lemma DisconnectLaidOut(d: Disconnect)
    requires EncodeDisconnect(d).Success?
    ensures OpsBytes(EncodeDisconnect(d).value) == Body(DisconnectPacket(d))
  {
    hide EncodeList, DisconnectList, DisconnectProps, Sized;
    OneOp(Put([d.reason]));
    if d.properties != NO_DISCONNECT_PROPERTIES {
      var list := EncodeList(DisconnectList(d.properties)).value;
      ListLaidOut(DisconnectList(d.properties));
      DisconnectPropsLaidOut(d.properties);
      OpsConcat([Put([d.reason])], list);
    }
  }

  lemma OptionsLaidOut(o: SubscribeOptions)
    ensures OptionsByte(o) == Bits(false, false, o.retainHandling.DoNotSend?, o.retainHandling.SendIfNew?, o.retainAsPublished,
      o.noLocal, o.maximumQoS.ExactlyOnce?, o.maximumQoS.AtLeastOnce?)
  {
  }

  lemma {:induction false} SubscriptionsLaidOut(to: seq<SubscribeTo>)
    requires FiltersFit(to)
    ensures OpsBytes(TosOps(to)) == SubscriptionBytes(to)
  {
    hide OptionsByte, Bits;
    if to != [] {
      SubscriptionsLaidOut(to[1..]);
      SubscribeToForm(to[0]);
      OptionsLaidOut(to[0].options);
      OpsConcat(SubscribeToOps(to[0]), TosOps(to[1..]));
    }
  }

  lemma SubscribeLaidOut(s: Subscribe)
    requires FiltersFit(s.to) && EncodeSubscribe(s).Success?
    ensures OpsBytes(EncodeSubscribe(s).value) == Body(SubscribePacket(s))
  {
    hide EncodeList, SubscribeList, SubscribeProps, Sized, TosOps, SubscriptionBytes;
    SubscribeForm(s);
    ListLaidOut(SubscribeList(s.subscriptionId, s.users));
    SubscribePropsLaidOut(s);
    SubscriptionsLaidOut(s.to);
  }

  lemma WillLaidOut(w: Option<Will>)
    requires EncodeWill(w).Success?
    ensures OpsBytes(EncodeWill(w).value) == WillBytes(w)
  {
    hide EncodeList, WillList, WillProps, Sized;
    if w.Some? {
      WillForm(w.value);
      ListLaidOut(WillList(w.value));
      WillPropsLaidOut(w.value);
    }
  }

  lemma ConnectHeaderLaidOut(c: Connect)
    ensures ConnectHeader(c) == ConnectStart(c)
  {
  }

  lemma MaybeStrLaidOut(t: Option<Text>)
    ensures OpsBytes(OptionalText(t)) == MaybeStr(t)
  {
    if t.Some? {
      OneOp(TextOp(t.value));
    }
  }

  lemma ClientIdLaidOut(id: Option<Text>)
    ensures TextBytes(OrElse(id, [])) == if id.Some? then Str(id.value) else [0x00, 0x00]
  {
  }

  lemma ConnectLaidOut(c: Connect)
    requires EncodeConnect(c).Success?
    ensures OpsBytes(EncodeConnect(c).value) == Body(ConnectPacket(c))
  {
    hide EncodeList, ConnectList, ConnectProps, Sized, EncodeWill, WillBytes, ConnectHeader, ConnectStart;
    hide OptionalText, MaybeStr, TextBytes, Str, OrElse;
    ConnectForm(c);
    ClientIdLaidOut(c.clientId);
    ConnectHeaderLaidOut(c);
    ListLaidOut(ConnectList(c.properties));
    ConnectPropsLaidOut(c.properties);
    WillLaidOut(c.will);
    MaybeStrLaidOut(c.username);
    MaybeStrLaidOut(c.password);
  }

  lemma BodyLaidOut(p: Packet)
    requires Encodable(p) && EncodeBody(p).Success?
    ensures OpsBytes(EncodeBody(p).value) == Body(p) && FirstByte(p) == First(p)
  {
    hide EncodeConnect, EncodePublish, EncodePubAck, EncodeSubscribe, EncodeDisconnect, Body;
    match p {
      case ConnectPacket(c) => ConnectLaidOut(c);
      case PublishPacket(m) => PublishLaidOut(m);
      case PubAckPacket(a) => PubAckLaidOut(a);
      case SubscribePacket(s) => SubscribeLaidOut(s);
      case DisconnectPacket(d) => DisconnectLaidOut(d);
      case PingReqPacket => PingLaidOut(p);
      case PingRespPacket => PingLaidOut(p);
    }
  }

  lemma PingLaidOut(p: Packet)
    requires p.PingReqPacket? || p.PingRespPacket?
    ensures Body(p) == []
  {
  }

  /** Every packet that encodes is laid out as the standard says, byte for byte. */
  lemma EncodedAsLaidOut(p: Packet)
    requires Encodable(p) && EncodePacket(p).Success?
    ensures OpsBytes(EncodePacket(p).value) == PacketBytes(p)
  {
    hide EncodeBody, Body, FirstByte, First;
    PacketForm(p);
    BodyLaidOut(p);
    LengthLaidOut(|Body(p)|);
  }

  /** Every well-formed packet that is laid out so, and fits, is decoded. */
  lemma LaidOutIsDecoded(ok: Bytes -> bool, p: Packet)
    requires PacketOk(ok, p) && BodyLength(p) < 268435456
    ensures Encodable(p) && DecodeFull(ok, PacketBytes(p)) == Success(p)
  {
    hide PacketOk, EncodePacket, DecodeFull, PacketBytes;
    PacketRoundTrip(ok, p);
    EncodedAsLaidOut(p);
  }

  // --- Reason codes ---

  /** Sections 3.4.2.1 and 3.14.2.1: the reason codes that the short forms are accepted with. */
  lemma ReasonCodes(ok: Bytes -> bool, b: byte)
    ensures DecodePubAck(ok, [0x00, 0x01, b]).Success? <==>
      b in {0x00, 0x10, 0x80, 0x83, 0x87, 0x90, 0x91, 0x97, 0x99}
    ensures DecodeDisconnect(ok, [b]).Success? <==>
      b in {0x00, 0x04} || 0x80 <= b <= 0x83 || b in {0x87, 0x89, 0x8B, 0x8D, 0x8E, 0x8F, 0x90} || 0x93 <= b <= 0xA2
  {
  }

  // --- When a packet can be encoded ---

  predicate IdsFit(ps: seq<Property>) {
    forall i :: 0 <= i < |ps| && ps[i].SubscriptionId? ==> ps[i].subscription < 268435456
  }

  lemma OneEncodes(p: Property)
    ensures EncodeOne(p).Success? <==> (p.SubscriptionId? ==> p.subscription < 268435456)
  {
  }

  lemma {:induction false} EachEncodes(ps: seq<Property>)
    ensures EncodeEach(ps).Success? <==> IdsFit(ps)
  {
    hide EncodeOne;
    if ps != [] {
      OneEncodes(ps[0]);
      EachEncodes(ps[1..]);
      assert forall i :: 0 < i < |ps| ==> ps[i] == ps[1..][i - 1];
    }
  }

  lemma ListEncodes(ps: seq<Property>)
    ensures EncodeList(ps).Success? <==> IdsFit(ps) && |WireList(ps)| < 268435456
  {
    hide EncodeEach, WireList;
    EachEncodes(ps);
    if EncodeEach(ps).Success? {
      EachLaidOut(ps);
      LengthLaidOut(|OpsBytes(EncodeEach(ps).value)|);
    }
  }

  /** Every part fits the field that says how long it is, and a SUBSCRIBE asks for something. */
  ghost predicate Fits(p: Packet)
    requires Encodable(p)
  {
    && |Body(p)| < 268435456
    && match p
       case ConnectPacket(c) =>
         && |ConnectProps(c.properties)| < 268435456
         && (c.will.Some? ==> |WillProps(c.will.value)| < 268435456 && |c.will.value.payload| <= 65535)
       case PublishPacket(m) =>
         && |PublishProps(m.properties)| < 268435456
         && forall i :: 0 <= i < |m.properties.subscriptionIds| ==> m.properties.subscriptionIds[i] < 268435456
       case PubAckPacket(a) => |PubAckProps(a.properties)| < 268435456
       case SubscribePacket(s) =>
         && s.to != [] && |SubscribeProps(s)| < 268435456
         && (s.subscriptionId.Some? ==> s.subscriptionId.value < 268435456)
       case DisconnectPacket(d) => |DisconnectProps(d.properties)| < 268435456
       case PingReqPacket => true
       case PingRespPacket => true
  }

  lemma IdsFitConcat(a: seq<Property>, b: seq<Property>)
    ensures IdsFit(a + b) <==> IdsFit(a) && IdsFit(b)
  {
    assert forall i :: 0 <= i < |a| ==> (a + b)[i] == a[i];
    assert forall i :: 0 <= i < |b| ==> (a + b)[|a| + i] == b[i];
  }

  lemma NoIds(ps: seq<Property>)
    requires forall i :: 0 <= i < |ps| ==> !ps[i].SubscriptionId?
    ensures IdsFit(ps)
  {
  }

  lemma PublishIdsFit(p: PublishProperties)
    ensures IdsFit(PublishList(p)) <==> forall i :: 0 <= i < |p.subscriptionIds| ==> p.subscriptionIds[i] < 268435456
  {
    var l7 := MaybeContentType(p.contentType);
    var l6 := IdList(p.subscriptionIds) + l7;
    var l5 := UserList(p.users) + l6;
    var l4 := MaybeCorrelationData(p.correlationData) + l5;
    var l3 := MaybeResponseTopic(p.responseTopic) + l4;
    var l2 := MaybeTopicAlias(p.topicAlias) + l3;
    var l1 := MaybeMessageExpiry(p.messageExpiry) + l2;
    IdsFitConcat([PayloadIsUtf8(p.payloadIsUtf8)], l1);
    IdsFitConcat(MaybeMessageExpiry(p.messageExpiry), l2);
    IdsFitConcat(MaybeTopicAlias(p.topicAlias), l3);
    IdsFitConcat(MaybeResponseTopic(p.responseTopic), l4);
    IdsFitConcat(MaybeCorrelationData(p.correlationData), l5);
    IdsFitConcat(UserList(p.users), l6);
    IdsFitConcat(IdList(p.subscriptionIds), l7);
    assert forall i :: 0 <= i < |p.subscriptionIds| ==> IdList(p.subscriptionIds)[i] == SubscriptionId(p.subscriptionIds[i]);
  }

  lemma ConnectListEncodes(p: ConnectProperties)
    ensures EncodeList(ConnectList(p)).Success? <==> |ConnectProps(p)| < 268435456
  {
    hide EncodeList, WireList, ConnectProps;
    ListEncodes(ConnectList(p));
    ConnectPropsLaidOut(p);
    NoIds(ConnectList(p));
  }

  lemma WillListEncodes(w: Will)
    ensures EncodeList(WillList(w)).Success? <==> |WillProps(w)| < 268435456
  {
    hide EncodeList, WireList, WillProps;
    ListEncodes(WillList(w));
    WillPropsLaidOut(w);
    NoIds(WillList(w));
  }

  lemma ConnectEncodesHere(c: Connect)
    ensures EncodeConnect(c).Success? <==>
      && |ConnectProps(c.properties)| < 268435456
      && (c.will.Some? ==> |WillProps(c.will.value)| < 268435456 && |c.will.value.payload| <= 65535)
  {
    hide EncodeList, ConnectList, WillList, ConnectProps, WillProps, ConnectHeader;
    ConnectListEncodes(c.properties);
    if c.will.Some? {
      WillListEncodes(c.will.value);
    }
  }

  lemma PublishEncodesHere(m: Publish)
    ensures EncodePublish(m).Success? <==>
      && |PublishProps(m.properties)| < 268435456
      && forall i :: 0 <= i < |m.properties.subscriptionIds| ==> m.properties.subscriptionIds[i] < 268435456
  {
    hide EncodeList, WireList, PublishList, PublishProps;
    ListEncodes(PublishList(m.properties));
    PublishPropsLaidOut(m.properties);
    PublishIdsFit(m.properties);
  }

  lemma SubscribeEncodesHere(s: Subscribe)
    requires FiltersFit(s.to)
    ensures EncodeSubscribe(s).Success? <==>
      && s.to != [] && |SubscribeProps(s)| < 268435456
      && (s.subscriptionId.Some? ==> s.subscriptionId.value < 268435456)
  {
    hide EncodeList, WireList, SubscribeProps, TosOps;
    ListEncodes(SubscribeList(s.subscriptionId, s.users));
    SubscribePropsLaidOut(s);
    IdsFitConcat(MaybeSubscriptionId(s.subscriptionId), UserList(s.users));
    NoIds(UserList(s.users));
    assert s.subscriptionId.Some? ==> MaybeSubscriptionId(s.subscriptionId)[0] == SubscriptionId(s.subscriptionId.value);
  }

  lemma BodyEncodes(p: Packet)
    requires Encodable(p) && |Body(p)| < 268435456
    ensures EncodeBody(p).Success? <==> Fits(p)
  {
    hide EncodeConnect, EncodePublish, EncodePubAck, EncodeSubscribe, EncodeDisconnect, Body;
    match p {
      case ConnectPacket(c) => ConnectEncodesHere(c);
      case PublishPacket(m) => PublishEncodesHere(m);
      case PubAckPacket(a) => PubAckEncodesHere(a);
      case SubscribePacket(s) => SubscribeEncodesHere(s);
      case DisconnectPacket(d) => DisconnectEncodesHere(d);
      case PingReqPacket =>
      case PingRespPacket =>
    }
  }

  lemma PubAckEncodesHere(a: PubAck)
    ensures EncodePubAck(a).Success? <==> |PubAckProps(a.properties)| < 268435456
  {
    hide EncodeList, WireList;
    ListEncodes(PubAckList(a.properties));
    PubAckPropsLaidOut(a.properties);
    NoIds(PubAckList(a.properties));
  }

  lemma DisconnectEncodesHere(d: Disconnect)
    ensures EncodeDisconnect(d).Success? <==> |DisconnectProps(d.properties)| < 268435456
  {
    hide EncodeList, WireList;
    ListEncodes(DisconnectList(d.properties));
    DisconnectPropsLaidOut(d.properties);
    NoIds(DisconnectList(d.properties));
  }

  /** A packet encodes exactly if it fits. */
  lemma EncodesIfFits(p: Packet)
    requires Encodable(p)
    ensures EncodePacket(p).Success? <==> Fits(p)
  {
    hide EncodeBody, Body, Fits;
    if EncodeBody(p).Success? {
      BodyLaidOut(p);
      LengthLaidOut(|Body(p)|);
    }
    if |Body(p)| < 268435456 {
      BodyEncodes(p);
    } else {
      TooLong(p);
    }
  }

  lemma TooLong(p: Packet)
    requires Encodable(p) && |Body(p)| >= 268435456
    ensures !Fits(p)
  {
  }
}
