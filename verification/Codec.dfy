/** Packet bodies and whole packets, protocol version 5: `src/mqtt_proto.rs` and one file per packet under it. */
module Codec {
  import opened Wrappers
  import opened Bytes
  import opened Packets
  import opened Wire
  import opened Properties
  import opened PropertyLists
  import Varint

  /** A body that has been read to its end, or not. */
  type Body<T> = Read<T>

  // --- PUBACK: src/mqtt_proto/puback.rs ---

  function PubAckList(p: PubAckProperties): seq<Property> {
    MaybeReasonString(p.reasonString) + UserList(p.users)
  }

  /** Three forms: identifier only, identifier and reason, everything. */
  function EncodePubAck(a: PubAck): Encoded {
    var id := [Put(U16Bytes(a.id))];
    var reason := if a.reason == SUCCESS && a.properties == NO_PUBACK_PROPERTIES then [] else [Put([a.reason])];
    if a.properties == NO_PUBACK_PROPERTIES then Success(id + reason)
    else
      var properties :- EncodeList(PubAckList(a.properties));
      Success(id + (reason + properties))
  }

  function DecodePubAck(ok: Bytes -> bool, src: Bytes): Body<PubAck> {
    var (id, s) :- GetPacketId(src);
    if s == [] then Success((PubAck(id, SUCCESS, NO_PUBACK_PROPERTIES), s))
    else
      var (reason, t) :- GetU8(s);
      if !IsPubAckReason(reason) then Failure(UnrecognizedReason)
      else if t == [] then Success((PubAck(id, reason, NO_PUBACK_PROPERTIES), t))
      else
        var (bag, rest) :- DecodeList(ok, InPubAck, t);
        Success((PubAck(id, reason, PubAckProperties(bag.reasonString, bag.users)), rest))
  }

  // --- DISCONNECT: src/mqtt_proto/disconnect.rs ---

  function DisconnectList(p: DisconnectProperties): seq<Property> {
    MaybeExpiry(p.sessionExpiry) +
    (MaybeReasonString(p.reasonString) +
    (UserList(p.users) +
    MaybeServerReference(p.serverReference)))
  }

  /** Three forms: empty, reason only, reason and properties. */
  function EncodeDisconnect(d: Disconnect): Encoded {
    if d.properties == NO_DISCONNECT_PROPERTIES then
      Success(if d.reason == NORMAL_DISCONNECTION then [] else [Put([d.reason])])
    else
      var properties :- EncodeList(DisconnectList(d.properties));
      Success([Put([d.reason])] + properties)
  }

  function DecodeDisconnect(ok: Bytes -> bool, src: Bytes): Body<Disconnect> {
    if src == [] then Success((Disconnect(NORMAL_DISCONNECTION, NO_DISCONNECT_PROPERTIES), src))
    else
      var (reason, s) :- GetU8(src);
      if !IsDisconnectReason(reason) then Failure(UnrecognizedReason)
      else if s == [] then Success((Disconnect(reason, NO_DISCONNECT_PROPERTIES), s))
      else
        var (bag, rest) :- DecodeList(ok, InDisconnect, s);
        Success((Disconnect(reason,
          DisconnectProperties(bag.sessionExpiry, bag.reasonString, bag.users, bag.serverReference)), rest))
  }

  // --- PUBLISH: src/mqtt_proto/publish.rs ---

  function PublishList(p: PublishProperties): seq<Property> {
    [PayloadIsUtf8(p.payloadIsUtf8)] +
    (MaybeMessageExpiry(p.messageExpiry) +
    (MaybeTopicAlias(p.topicAlias) +
    (MaybeResponseTopic(p.responseTopic) +
    (MaybeCorrelationData(p.correlationData) +
    (UserList(p.users) +
    (IdList(p.subscriptionIds) +
    MaybeContentType(p.contentType)))))))
  }

  function PublishFromBag(bag: Bag): PublishProperties {
    PublishProperties(
      bag.payloadIsUtf8.Some? && bag.payloadIsUtf8.value,
      bag.messageExpiry, bag.topicAlias, bag.responseTopic, bag.correlationData,
      bag.users, bag.subscriptionIds, bag.contentType)
  }

  function IdOps(d: Delivery): seq<Op> {
    match d
    case Once => []
    case Acked(id, _) => [Put(U16Bytes(id))]
    case Assured(id, _) => [Put(U16Bytes(id))]
  }

  function EncodePublish(p: Publish): Encoded {
    var properties :- EncodeList(PublishList(p.properties));
    Success([TextOp(p.topic)] + (IdOps(p.delivery) + (properties + [Share(p.payload)])))
  }

  /** The low four bits of the first byte: DUP, QoS, RETAIN. */
  function PublishFlags(p: Publish): (flags: byte)
    ensures flags < 16
  {
    (match p.delivery
     case Once => 0
     case Acked(_, dup) => if dup then 10 else 2
     case Assured(_, dup) => if dup then 12 else 4)
    + (if p.retain then 1 else 0)
  }

  function GetDelivery(flags: byte, src: Bytes): Read<Delivery> {
    var dup := Bit(flags, 8);
    match flags / 2 % 4
    case 0 => if dup then Failure(PublishDupAtMostOnce) else Success((Once, src))
    case 1 => var (id, s) :- GetPacketId(src); Success((Acked(id, dup), s))
    case 2 => var (id, s) :- GetPacketId(src); Success((Assured(id, dup), s))
    case _ => Failure(DecodeError.UnrecognizedQoS)
  }

  function DecodePublish(ok: Bytes -> bool, flags: byte, src: Bytes): Body<Publish> {
    var (topic, s) :- GetTopic(ok, src);
    var (delivery, t) :- GetDelivery(flags, s);
    var (bag, payload) :- DecodeList(ok, InPublish, t);
    Success((Publish(topic, delivery, Bit(flags, 1), payload, PublishFromBag(bag)), []))
  }

  // --- SUBSCRIBE: src/mqtt_proto/subscribe.rs ---

  function OptionsByte(o: SubscribeOptions): byte {
    QoSCode(o.maximumQoS)
    + (if o.noLocal then 4 else 0)
    + (if o.retainAsPublished then 8 else 0)
    + RetainHandlingCode(o.retainHandling) * 16
  }

  function QoSFrom(n: nat): Result<QoS, DecodeError> {
    if n == 0 then Success(AtMostOnce)
    else if n == 1 then Success(AtLeastOnce)
    else if n == 2 then Success(ExactlyOnce)
    else Failure(DecodeError.UnrecognizedQoS)
  }

  function RetainHandlingFrom(n: nat): Result<RetainHandling, DecodeError> {
    if n == 0 then Success(Send)
    else if n == 1 then Success(SendIfNew)
    else if n == 2 then Success(DoNotSend)
    else Failure(UnrecognizedRetainHandling)
  }

  function OptionsFrom(b: byte): Result<SubscribeOptions, DecodeError> {
    var qos :- QoSFrom(b % 4);
    var handling :- RetainHandlingFrom(b / 16 % 4);
    if b / 64 != 0 then Failure(SubscriptionOptionsReservedSet)
    else Success(SubscribeOptions(qos, Bit(b, 4), Bit(b, 8), handling))
  }

  function SubscribeToOps(t: SubscribeTo): seq<Op>
    requires |t.filter.text| <= 0xFFFF
  {
    [TextOp(t.filter.text), Put([OptionsByte(t.options)])]
  }

  function GetSubscribeTo(ok: Bytes -> bool, src: Bytes): (r: Read<SubscribeTo>)
    ensures r.Success? ==>
      && ParsedFilter(ok, r.value.0.filter)
      && !(r.value.0.filter.kind.Shared? && r.value.0.options.noLocal)
      && |src| == 3 + |r.value.0.filter.text| + |r.value.1|
  {
    var (filter, s) :- GetFilter(ok, src);
    var (b, rest) :- GetU8(s);
    var options :- OptionsFrom(b);
    if filter.kind.Shared? && options.noLocal then Failure(NoLocalWithSharedSubscription)
    else Success((SubscribeTo(filter, options), rest))
  }

  predicate FiltersFit(ts: seq<SubscribeTo>) {
    forall i :: 0 <= i < |ts| ==> |ts[i].filter.text| <= 0xFFFF
  }

  function TosOps(ts: seq<SubscribeTo>): seq<Op>
    requires FiltersFit(ts)
  {
    if ts == [] then [] else SubscribeToOps(ts[0]) + TosOps(ts[1..])
  }

  function GetTos(ok: Bytes -> bool, src: Bytes): Result<seq<SubscribeTo>, DecodeError>
    decreases |src|
  {
    if src == [] then Success([])
    else
      var (first, s) :- GetSubscribeTo(ok, src);
      var more :- GetTos(ok, s);
      Success([first] + more)
  }

  function SubscribeList(id: Option<NonZeroU32>, users: seq<UserProperty>): seq<Property> {
    MaybeSubscriptionId(id) + UserList(users)
  }

  function EncodeSubscribe(s: Subscribe): Encoded
    requires FiltersFit(s.to)
  {
    var properties :- EncodeList(SubscribeList(s.subscriptionId, s.users));
    if s.to == [] then Failure(EmptySubscribe)
    else Success([Put(U16Bytes(s.id))] + (properties + TosOps(s.to)))
  }

  function DecodeSubscribe(ok: Bytes -> bool, src: Bytes): Body<Subscribe> {
    var (id, s) :- GetPacketId(src);
    var (bag, t) :- DecodeList(ok, InSubscribe, s);
    var tos :- GetTos(ok, t);
    if tos == [] then Failure(NoTopics)
    else
      var subscription := if bag.subscriptionIds == [] then None else Some(bag.subscriptionIds[0]);
      Success((Subscribe(id, tos, subscription, bag.users), []))
  }

  // --- CONNECT: src/mqtt_proto/connect.rs ---

  /** "MQTT". */
  const PROTOCOL_NAME: Text := [0x4D, 0x51, 0x54, 0x54]
  const PROTOCOL_VERSION: byte := 5

  /** `Authentication::into_parts`. */
  function AuthenticationMethod(a: Option<Authentication>): Option<Text> {
    if a.Some? then Some(a.value.scheme) else None
  }

  function AuthenticationData(a: Option<Authentication>): Option<Text> {
    if a.Some? then a.value.data else None
  }

  function ConnectList(p: ConnectProperties): seq<Property> {
    [ConnectSessionExpiry(p.sessionExpiry)] +
    ([ReceiveMaximum(p.receiveMaximum)] +
    ([MaximumPacketSize(p.maximumPacketSize)] +
    ([TopicAliasMaximum(p.topicAliasMaximum)] +
    ([RequestResponse(p.requestResponse)] +
    ([RequestProblem(p.requestProblem)] +
    (UserList(p.users) +
    (MaybeAuthMethod(AuthenticationMethod(p.authentication)) +
    MaybeAuthData(AuthenticationData(p.authentication)))))))))
  }

  function WillList(w: Will): seq<Property> {
    [WillDelay(w.delay)] +
    ([PayloadIsUtf8(w.properties.payloadIsUtf8)] +
    (MaybeMessageExpiry(w.properties.messageExpiry) +
    (MaybeContentType(w.properties.contentType) +
    (MaybeResponseTopic(w.properties.responseTopic) +
    (MaybeCorrelationData(w.properties.correlationData) +
    UserList(w.properties.users))))))
  }

  function OrElse<T>(o: Option<T>, default: T): T {
    if o.Some? then o.value else default
  }

  function AuthenticationOf(bag: Bag): Result<Option<Authentication>, DecodeError> {
    if bag.authMethod.Some? then Success(Some(Authentication(bag.authMethod.value, bag.authData)))
    else if bag.authData.Some? then Failure(MissingAuthenticationMethod)
    else Success(None)
  }

  function ConnectFromBag(bag: Bag): Result<ConnectProperties, DecodeError> {
    var authentication :- AuthenticationOf(bag);
    Success(ConnectProperties(
      OrElse(bag.sessionExpiry, Duration(0)), OrElse(bag.receiveMaximum, 0xFFFF),
      OrElse(bag.maximumPacketSize, 0xFFFF_FFFF), OrElse(bag.topicAliasMaximum, 0),
      OrElse(bag.requestResponse, false), OrElse(bag.requestProblem, true),
      bag.users, authentication))
  }

  function ConnectFlags(c: Connect): byte {
    (if c.username.Some? then 128 else 0)
    + (if c.password.Some? then 64 else 0)
    + (match c.will
       case None => 0
       case Some(w) => 4 + (if w.retain then 32 else 0) + QoSCode(w.qos) * 8)
    + (if c.cleanStart then 2 else 0)
  }

  function OptionalText(t: Option<Text>): seq<Op> {
    if t.Some? then [TextOp(t.value)] else []
  }

  function EncodeWill(w: Option<Will>): Encoded {
    match w
    case None => Success([])
    case Some(will) =>
      var properties :- EncodeList(WillList(will));
      if |will.payload| > 0xFFFF then Failure(WillTooLarge)
      else Success(properties + [TextOp(will.topic), Put(U16Bytes(|will.payload|)), Share(will.payload)])
  }

  /** Protocol name and version, flags, keep alive. */
  function ConnectHeader(c: Connect): Bytes {
    TextBytes(PROTOCOL_NAME) + ([PROTOCOL_VERSION] + ([ConnectFlags(c)] + U16Bytes(KeepAliveToU16(c.keepAlive))))
  }

  /** An absent client identifier is copied as an empty string; a present one is shared. */
  function ClientIdOp(id: Option<Text>): Op {
    match id
    case None => Put(TextBytes([]))
    case Some(t) => TextOp(t)
  }

  function EncodeConnect(c: Connect): Encoded {
    var properties :- EncodeList(ConnectList(c.properties));
    var will :- EncodeWill(c.will);
    Success([Put(ConnectHeader(c))] + (properties + ([ClientIdOp(c.clientId)] +
      (will + (OptionalText(c.username) + OptionalText(c.password))))))
  }

  function GetWill(ok: Bytes -> bool, flags: byte, src: Bytes): Read<Option<Will>> {
    if !Bit(flags, 4) then
      if flags / 8 % 4 != 0 || Bit(flags, 32) then Failure(WillFlagsWithoutWill) else Success((None, src))
    else
      var (bag, s) :- DecodeList(ok, InWill, src);
      var (topic, t) :- GetTopic(ok, s);
      var qos :- QoSFrom(flags / 8 % 4);
      var (payload, rest) :- GetBinary(t);
      Success((Some(Will(topic, qos, Bit(flags, 32), payload,
        WillProperties(OrElse(bag.payloadIsUtf8, false), bag.messageExpiry, bag.responseTopic,
          bag.correlationData, bag.users, bag.contentType),
        OrElse(bag.willDelay, 0))), rest))
  }

  function GetOptionalText(ok: Bytes -> bool, present: bool, src: Bytes): Read<Option<Text>> {
    if !present then Success((None, src))
    else
      var (t, rest) :- GetText(ok, src);
      Success((Some(t), rest))
  }

  function GetOptionalBinary(present: bool, src: Bytes): Read<Option<Text>> {
    if !present then Success((None, src))
    else
      var (t, rest) :- GetBinary(src);
      Success((Some(t), rest))
  }

  /** `decode_start` and the flags and keep alive that follow. */
  function GetConnectHeader(ok: Bytes -> bool, src: Bytes): (r: Read<(byte, u16)>)
    ensures r.Success? ==> |src| == 10 + |r.value.1|
  {
    var (name, s) :- GetText(ok, src);
    if name != PROTOCOL_NAME then Failure(UnrecognizedProtocolName)
    else
      var (version, t) :- GetU8(s);
      if version != PROTOCOL_VERSION then Failure(UnrecognizedProtocolVersion)
      else
        var (flags, u) :- GetU8(t);
        if Bit(flags, 1) then Failure(ConnectReservedSet)
        else
          var (keepAlive, rest) :- GetU16(u);
          Success(((flags, keepAlive), rest))
  }

  function DecodeConnect(ok: Bytes -> bool, src: Bytes): Body<Connect> {
    var ((flags, keepAlive), s) :- GetConnectHeader(ok, src);
    var (bag, t) :- DecodeList(ok, InConnect, s);
    var (clientId, u) :- GetText(ok, t);
    var (will, v) :- GetWill(ok, flags, u);
    var (username, w) :- GetOptionalText(ok, Bit(flags, 128), v);
    var (password, rest) :- GetOptionalBinary(Bit(flags, 64), w);
    var properties :- ConnectFromBag(bag);
    Success((Connect(username, password, will, if clientId == [] then None else Some(clientId),
      Bit(flags, 2), KeepAliveFromU16(keepAlive), properties), rest))
  }

  // --- Whole packets: src/mqtt_proto.rs ---

  /** Packet type in the high nibble, flags in the low one. */
  function FirstByte(p: Packet): byte {
    match p
    case ConnectPacket(_) => 0x10
    case PublishPacket(publish) => 0x30 + PublishFlags(publish)
    case PubAckPacket(_) => 0x40
    case SubscribePacket(_) => 0x82
    case PingReqPacket => 0xC0
    case PingRespPacket => 0xD0
    case DisconnectPacket(_) => 0xE0
  }

  predicate Encodable(p: Packet) {
    p.SubscribePacket? ==> FiltersFit(p.subscribe.to)
  }

  function EncodeBody(p: Packet): Encoded
    requires Encodable(p)
  {
    match p
    case ConnectPacket(c) => EncodeConnect(c)
    case PublishPacket(publish) => EncodePublish(publish)
    case PubAckPacket(a) => EncodePubAck(a)
    case SubscribePacket(s) => EncodeSubscribe(s)
    case PingReqPacket => Success([])
    case PingRespPacket => Success([])
    case DisconnectPacket(d) => EncodeDisconnect(d)
  }

  /** `encode_inner`: count the body, write first byte and length, write the body. */
  function EncodePacket(p: Packet): Encoded
    requires Encodable(p)
  {
    var body :- EncodeBody(p);
    match Varint.Encode(|OpsBytes(body)|)
    case None => Failure(RemainingLengthTooHigh)
    case Some(b) => Success([Put([FirstByte(p)]), Put(b)] + body)
  }

  function Finish<T>(r: Body<T>, wrap: T -> Packet): Result<Packet, DecodeError> {
    var (value, rest) :- r;
    if rest != [] then Failure(TrailingGarbage) else Success(wrap(value))
  }

  /** `Packet::decode`. Packet types outside the model are reported as such. */
  function DecodePacket(ok: Bytes -> bool, first: byte, body: Bytes): Result<Packet, DecodeError> {
    var kind, flags := first / 16, first % 16;
    if kind == 1 && flags == 0 then Finish(DecodeConnect(ok, body), c => ConnectPacket(c))
    else if kind == 3 then Finish(DecodePublish(ok, flags, body), p => PublishPacket(p))
    else if kind == 4 && flags == 0 then Finish(DecodePubAck(ok, body), a => PubAckPacket(a))
    else if kind == 8 && flags == 2 then Finish(DecodeSubscribe(ok, body), s => SubscribePacket(s))
    else if kind == 12 && flags == 0 then if body == [] then Success(PingReqPacket) else Failure(TrailingGarbage)
    else if kind == 13 && flags == 0 then if body == [] then Success(PingRespPacket) else Failure(TrailingGarbage)
    else if kind == 14 && flags == 0 then Finish(DecodeDisconnect(ok, body), d => DisconnectPacket(d))
    else if (kind in {2, 5, 7, 9, 11, 15} && flags == 0) || (kind in {6, 10} && flags == 2) then Failure(UnmodelledPacket)
    else Failure(UnrecognizedPacket)
  }

  /** `decode_fixed_header`: `None` asks for more bytes. */
  function FixedHeader(src: Bytes): (r: Result<Option<(byte, nat, nat)>, DecodeError>)
    ensures r.Success? && r.value.Some? ==> r.value.value.2 <= |src|
  {
    if src == [] then Success(None)
    else
      match Varint.Decode(src[1..])
      case Complete(n, length) => Success(Some((src[0], n, 1 + length)))
      case Incomplete => Success(None)
      case TooHigh => Failure(VarintTooHigh)
  }

  /** `Packet::decode_full`. */
  function DecodeFull(ok: Bytes -> bool, src: Bytes): Result<Packet, DecodeError> {
    var header :- FixedHeader(src);
    match header
    case None => Failure(IncompletePacket)
    case Some((first, n, start)) =>
      var body := src[start..];
      if |body| < n then Failure(IncompletePacket)
      else if |body| > n then Failure(TrailingGarbage)
      else DecodePacket(ok, first, body)
  }
}
