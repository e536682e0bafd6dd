/** The packets of MQTT Version 5.0 that the client builds or reads, as values. */
module Packets {
  import opened Wrappers
  import opened Bytes
  import TopicFilter

  type NonZeroU16 = n: int | 1 <= n < 0x1_0000 witness 1
  type NonZeroU32 = n: int | 1 <= n < 0x1_0000_0000 witness 1

  /** Packet identifiers are non-zero: section 2.2.1. */
  type PacketId = NonZeroU16

  /** The content of a `BinaryData` or `ByteStr`: at most 65,535 bytes, so that the length prefix fits. */
  type Text = s: Bytes | |s| <= 0xFFFF

  datatype QoS = AtMostOnce | AtLeastOnce | ExactlyOnce

  /** Section 3.1.2.11.2. `Duration(0xFFFF_FFFF)` is representable but shares its encoding with `Infinite`. */
  datatype SessionExpiry = Infinite | Duration(seconds: u32)

  datatype KeepAlive = Off | Every(seconds: NonZeroU16)

  datatype UserProperty = UserProperty(name: Text, value: Text)

  datatype Authentication = Authentication(scheme: Text, data: Option<Text>)

  /** Identifier, DUP flag and QoS in their valid combinations. */
  datatype Delivery = Once | Acked(id: PacketId, dup: bool) | Assured(id: PacketId, dup: bool)

  datatype PublishProperties = PublishProperties(
    payloadIsUtf8: bool,
    messageExpiry: Option<u32>,
    topicAlias: Option<NonZeroU16>,
    responseTopic: Option<Text>,
    correlationData: Option<Text>,
    users: seq<UserProperty>,
    subscriptionIds: seq<NonZeroU32>,
    contentType: Option<Text>)

  datatype Publish = Publish(
    topic: Text,
    delivery: Delivery,
    retain: bool,
    payload: Bytes,
    properties: PublishProperties)

  datatype WillProperties = WillProperties(
    payloadIsUtf8: bool,
    messageExpiry: Option<u32>,
    responseTopic: Option<Text>,
    correlationData: Option<Text>,
    users: seq<UserProperty>,
    contentType: Option<Text>)

  datatype Will = Will(
    topic: Text,
    qos: QoS,
    retain: bool,
    payload: Bytes,
    properties: WillProperties,
    delay: u32)

  datatype ConnectProperties = ConnectProperties(
    sessionExpiry: SessionExpiry,
    receiveMaximum: NonZeroU16,
    maximumPacketSize: NonZeroU32,
    topicAliasMaximum: u16,
    requestResponse: bool,
    requestProblem: bool,
    users: seq<UserProperty>,
    authentication: Option<Authentication>)

  datatype Connect = Connect(
    username: Option<Text>,
    password: Option<Text>,
    will: Option<Will>,
    clientId: Option<Text>,
    cleanStart: bool,
    keepAlive: KeepAlive,
    properties: ConnectProperties)

  datatype RetainHandling = Send | SendIfNew | DoNotSend

  datatype SubscribeOptions = SubscribeOptions(
    maximumQoS: QoS,
    noLocal: bool,
    retainAsPublished: bool,
    retainHandling: RetainHandling)

  datatype SubscribeTo = SubscribeTo(filter: TopicFilter.Filter, options: SubscribeOptions)

  datatype Subscribe = Subscribe(
    id: PacketId,
    to: seq<SubscribeTo>,
    subscriptionId: Option<NonZeroU32>,
    users: seq<UserProperty>)

  datatype DisconnectProperties = DisconnectProperties(
    sessionExpiry: Option<SessionExpiry>,
    reasonString: Option<Text>,
    users: seq<UserProperty>,
    serverReference: Option<Text>)

  datatype Disconnect = Disconnect(reason: byte, properties: DisconnectProperties)

  datatype PubAckProperties = PubAckProperties(reasonString: Option<Text>, users: seq<UserProperty>)

  datatype PubAck = PubAck(id: PacketId, reason: byte, properties: PubAckProperties)

  datatype Packet =
    | ConnectPacket(connect: Connect)
    | PublishPacket(publish: Publish)
    | PubAckPacket(puback: PubAck)
    | SubscribePacket(subscribe: Subscribe)
    | DisconnectPacket(disconnect: Disconnect)
    | PingReqPacket
    | PingRespPacket

  const NORMAL_DISCONNECTION: byte := 0x00
  const SUCCESS: byte := 0x00

  /** Section 3.14.2.1. */
  predicate IsDisconnectReason(b: byte) {
    b in {0x00, 0x04, 0x80, 0x81, 0x82, 0x83, 0x87, 0x89, 0x8B, 0x8D, 0x8E, 0x8F, 0x90, 0x93, 0x94, 0x95, 0x96,
          0x97, 0x98, 0x99, 0x9A, 0x9B, 0x9C, 0x9D, 0x9E, 0x9F, 0xA0, 0xA1, 0xA2}
  }

  /** Section 3.4.2.1. */
  predicate IsPubAckReason(b: byte) {
    b in {0x00, 0x10, 0x80, 0x83, 0x87, 0x90, 0x91, 0x97, 0x99}
  }

  const NO_DISCONNECT_PROPERTIES := DisconnectProperties(None, None, [], None)
  const NO_PUBACK_PROPERTIES := PubAckProperties(None, [])

  function QoSCode(q: QoS): (c: byte)
    ensures c < 3
  {
    match q case AtMostOnce => 0 case AtLeastOnce => 1 case ExactlyOnce => 2
  }

  function RetainHandlingCode(h: RetainHandling): (c: byte)
    ensures c < 3
  {
    match h case Send => 0 case SendIfNew => 1 case DoNotSend => 2
  }

  function ExpiryFromU32(n: u32): SessionExpiry {
    if n == 0xFFFF_FFFF then Infinite else Duration(n)
  }

  function ExpiryToU32(e: SessionExpiry): u32 {
    match e case Infinite => 0xFFFF_FFFF case Duration(n) => n
  }

  function KeepAliveFromU16(n: u16): KeepAlive {
    if n == 0 then Off else Every(n)
  }

  function KeepAliveToU16(k: KeepAlive): u16 {
    match k case Off => 0 case Every(n) => n
  }
}
