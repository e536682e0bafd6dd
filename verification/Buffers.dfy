/**
 * The codec as it runs: decoders drain a source field by field, encoders append to a destination, loops go over
 * property lists and subscriptions. Each does what its function in `Codec` or `PropertyLists` says.
 */
module Buffers {
  import opened Wrappers
  import opened Bytes
  import opened Packets
  import opened Wire
  import opened Properties
  import opened PropertyLists
  import opened Codec
  import Accumulators
  import TopicFilter
  import Varint

  // --- Decoding ---

  /** The value was read, and `left` is what comes after it; or reading failed. */
  ghost predicate Took<T>(expected: Read<T>, r: Result<T, DecodeError>, left: Bytes) {
    match expected
    case Success((v, rest)) => r == Success(v) && left == rest
    case Failure(e) => r == Failure(e)
  }

  class Source {
    var bytes: Bytes

    constructor (bytes: Bytes)
      ensures this.bytes == bytes
    {
      this.bytes := bytes;
    }

    method TakeU8() returns (r: Result<byte, DecodeError>)
      modifies this
      ensures Took(GetU8(old(bytes)), r, bytes)
    {
      if |bytes| < 1 {
        return Failure(IncompletePacket);
      }
      r := Success(bytes[0]);
      bytes := bytes[1..];
    }

    method TakeU16() returns (r: Result<u16, DecodeError>)
      modifies this
      ensures Took(GetU16(old(bytes)), r, bytes)
    {
      if |bytes| < 2 {
        return Failure(IncompletePacket);
      }
      r := Success(U16At(bytes));
      bytes := bytes[2..];
    }

    method TakeU32() returns (r: Result<u32, DecodeError>)
      modifies this
      ensures Took(GetU32(old(bytes)), r, bytes)
    {
      if |bytes| < 4 {
        return Failure(IncompletePacket);
      }
      r := Success(U32At(bytes));
      bytes := bytes[4..];
    }

    method TakePacketId() returns (r: Result<PacketId, DecodeError>)
      modifies this
      ensures Took(GetPacketId(old(bytes)), r, bytes)
    {
      var n :- TakeU16();
      return if n == 0 then Failure(ZeroPacketIdentifier) else Success(n);
    }

    method TakeVarint() returns (r: Result<nat, DecodeError>)
      modifies this
      ensures Took(GetVarint(old(bytes)), r, bytes)
    {
      var decoded := Varint.DecodeLoop(bytes);
      match decoded {
        case Complete(v, n) =>
          bytes := bytes[n..];
          return Success(v);
        case Incomplete => return Failure(IncompletePacket);
        case TooHigh => return Failure(VarintTooHigh);
      }
    }

    /** Peeks at the length prefix, and takes prefix and content together. */
    method TakeBinary() returns (r: Result<Text, DecodeError>)
      modifies this
      ensures Took(GetBinary(old(bytes)), r, bytes)
    {
      if |bytes| < 2 {
        return Failure(IncompletePacket);
      }
      var n: nat := U16At(bytes);
      if |bytes| < 2 + n {
        return Failure(IncompletePacket);
      }
      r := Success(bytes[2..2 + n]);
      bytes := bytes[2 + n..];
    }

    method TakeText(ok: Bytes -> bool) returns (r: Result<Text, DecodeError>)
      modifies this
      ensures Took(GetText(ok, old(bytes)), r, bytes)
    {
      var t :- TakeBinary();
      return if ok(t) then Success(t) else Failure(InvalidByteStr);
    }

    method TakeTopic(ok: Bytes -> bool) returns (r: Result<Text, DecodeError>)
      modifies this
      ensures Took(GetTopic(ok, old(bytes)), r, bytes)
    {
      var t :- TakeText(ok);
      var topic := TopicFilter.ParseTopic(ok, t);
      return if topic.Success? then Success(topic.value) else Failure(BadTopic(topic.error));
    }

    method TakeFilter(ok: Bytes -> bool) returns (r: Result<TopicFilter.Filter, DecodeError>)
      modifies this
      ensures Took(GetFilter(ok, old(bytes)), r, bytes)
    {
      var t :- TakeText(ok);
      var filter := TopicFilter.NewFilter(ok, t);
      return if filter.Success? then Success(filter.value) else Failure(BadFilter(filter.error));
    }

    method TakeValue(ok: Bytes -> bool, t: WireType) returns (r: Result<Value, DecodeError>)
      modifies this
      ensures Took(GetValue(ok, t, old(bytes)), r, bytes)
    {
      hide GetText, GetTopic, GetVarint, GetBinary, GetU16, GetU32, GetU8;
      match t {
        case FlagType =>
          var b :- TakeU8();
          return if b > 1 then Failure(UnrecognizedFlag) else Success(FlagValue(b == 1));
        case U16Type =>
          var n :- TakeU16();
          return Success(U16Value(n));
        case U32Type =>
          var n :- TakeU32();
          return Success(U32Value(n));
        case VarintType =>
          var n :- TakeVarint();
          return Success(VarintValue(n));
        case TextType =>
          var x :- TakeText(ok);
          return Success(TextValue(x));
        case TopicType =>
          var x :- TakeTopic(ok);
          return Success(TopicValue(x));
        case BinaryType =>
          var x :- TakeBinary();
          return Success(BinaryValue(x));
        case PairType =>
          var name :- TakeText(ok);
          var value :- TakeText(ok);
          return Success(PairValue(UserProperty(name, value)));
      }
    }

    method TakeProperty(ok: Bytes -> bool) returns (r: Result<Property, DecodeError>)
      modifies this
      ensures Took(DecodeOne(ok, old(bytes)), r, bytes)
    {
      hide GetValue, FromWire, TypeOf;
      var id :- TakeU8();
      var t := TypeOf(id);
      if t.None? {
        return Failure(UnrecognizedProperty);
      }
      var v :- TakeValue(ok, t.value);
      r := FromWire(id, v);
    }

    /** `decode_properties!`: a length, then a loop over that many bytes. */
    method TakeProperties(ok: Bytes -> bool, owner: Owner) returns (r: Result<Bag, DecodeError>)
      modifies this
      ensures Took(DecodeList(ok, owner, old(bytes)), r, bytes)
    {
      hide DecodeOne, Gather, GetVarint;
      var n :- TakeVarint();
      if |bytes| < n {
        return Failure(IncompletePacket);
      }
      var list := new Source(bytes[..n]);
      bytes := bytes[n..];
      ghost var all, left := list.bytes, bytes;
      var bag := EMPTY;
      while list.bytes != []
        invariant DecodeInto(ok, owner, list.bytes, bag) == DecodeInto(ok, owner, all, EMPTY)
        invariant bytes == left
        decreases |list.bytes|
      {
        var p :- list.TakeProperty(ok);
        bag :- Gather(owner, bag, p);
      }
      return Success(bag);
    }
  }

  method DecodePubAckFrom(ok: Bytes -> bool, src: Source) returns (r: Result<PubAck, DecodeError>)
    modifies src
    ensures Took(DecodePubAck(ok, old(src.bytes)), r, src.bytes)
  {
    hide DecodeList, IsPubAckReason, GetPacketId, GetU8;
    var id :- src.TakePacketId();
    if src.bytes == [] {
      return Success(PubAck(id, SUCCESS, NO_PUBACK_PROPERTIES));
    }
    var reason :- src.TakeU8();
    if !IsPubAckReason(reason) {
      return Failure(UnrecognizedReason);
    }
    if src.bytes == [] {
      return Success(PubAck(id, reason, NO_PUBACK_PROPERTIES));
    }
    var bag :- src.TakeProperties(ok, InPubAck);
    return Success(PubAck(id, reason, PubAckProperties(bag.reasonString, bag.users)));
  }

  method DecodeDisconnectFrom(ok: Bytes -> bool, src: Source) returns (r: Result<Disconnect, DecodeError>)
    modifies src
    ensures Took(DecodeDisconnect(ok, old(src.bytes)), r, src.bytes)
  {
    hide DecodeList, IsDisconnectReason, GetU8;
    if src.bytes == [] {
      return Success(Disconnect(NORMAL_DISCONNECTION, NO_DISCONNECT_PROPERTIES));
    }
    var reason :- src.TakeU8();
    if !IsDisconnectReason(reason) {
      return Failure(UnrecognizedReason);
    }
    if src.bytes == [] {
      return Success(Disconnect(reason, NO_DISCONNECT_PROPERTIES));
    }
    var bag :- src.TakeProperties(ok, InDisconnect);
    return Success(Disconnect(reason,
      DisconnectProperties(bag.sessionExpiry, bag.reasonString, bag.users, bag.serverReference)));
  }

  method DecodeDeliveryFrom(flags: byte, src: Source) returns (r: Result<Delivery, DecodeError>)
    modifies src
    ensures Took(GetDelivery(flags, old(src.bytes)), r, src.bytes)
  {
    hide GetPacketId;
    var dup, qos := Bit(flags, 8), flags / 2 % 4;
    if qos == 0 {
      return if dup then Failure(PublishDupAtMostOnce) else Success(Once);
    }
    if qos == 3 {
      return Failure(DecodeError.UnrecognizedQoS);
    }
    var id :- src.TakePacketId();
    return Success(if qos == 1 then Acked(id, dup) else Assured(id, dup));
  }

  method DecodePublishFrom(ok: Bytes -> bool, flags: byte, src: Source) returns (r: Result<Publish, DecodeError>)
    modifies src
    ensures Took(DecodePublish(ok, flags, old(src.bytes)), r, src.bytes)
  {
    hide DecodeList, GetTopic, GetDelivery, PublishFromBag;
    var topic :- src.TakeTopic(ok);
    var delivery :- DecodeDeliveryFrom(flags, src);
    var bag :- src.TakeProperties(ok, InPublish);
    var payload := src.bytes;
    src.bytes := [];
    return Success(Publish(topic, delivery, Bit(flags, 1), payload, PublishFromBag(bag)));
  }

  method DecodeSubscribeToFrom(ok: Bytes -> bool, src: Source) returns (r: Result<SubscribeTo, DecodeError>)
    modifies src
    ensures Took(GetSubscribeTo(ok, old(src.bytes)), r, src.bytes)
  {
    hide GetFilter, GetU8, OptionsFrom;
    var filter :- src.TakeFilter(ok);
    var b :- src.TakeU8();
    var options :- OptionsFrom(b);
    if filter.kind.Shared? && options.noLocal {
      return Failure(NoLocalWithSharedSubscription);
    }
    return Success(SubscribeTo(filter, options));
  }

  /** The `while !src.is_empty()` loop. */
  method DecodeTosFrom(ok: Bytes -> bool, src: Source) returns (r: Result<seq<SubscribeTo>, DecodeError>)
    modifies src
    ensures r == GetTos(ok, old(src.bytes))
    ensures r.Success? ==> src.bytes == []
  {
    hide GetSubscribeTo;
    var tos := [];
    ghost var all := GetTos(ok, src.bytes);
    assert all.Success? ==> [] + all.value == all.value;
    while src.bytes != []
      invariant all == match GetTos(ok, src.bytes) case Success(more) => Success(tos + more) case Failure(e) => Failure(e)
      decreases |src.bytes|
    {
      ghost var before := src.bytes;
      var to :- DecodeSubscribeToFrom(ok, src);
      ghost var more := GetTos(ok, src.bytes);
      assert more.Success? ==> tos + ([to] + more.value) == tos + [to] + more.value;
      tos := tos + [to];
    }
    assert tos + [] == tos;
    return Success(tos);
  }

  method DecodeSubscribeFrom(ok: Bytes -> bool, src: Source) returns (r: Result<Subscribe, DecodeError>)
    modifies src
    ensures Took(DecodeSubscribe(ok, old(src.bytes)), r, src.bytes)
  {
    hide DecodeList, GetPacketId, GetTos;
    var id :- src.TakePacketId();
    var bag :- src.TakeProperties(ok, InSubscribe);
    var tos :- DecodeTosFrom(ok, src);
    if tos == [] {
      return Failure(NoTopics);
    }
    return Success(Subscribe(id, tos, if bag.subscriptionIds == [] then None else Some(bag.subscriptionIds[0]), bag.users));
  }

  method DecodeConnectHeaderFrom(ok: Bytes -> bool, src: Source) returns (r: Result<(byte, u16), DecodeError>)
    modifies src
    ensures Took(GetConnectHeader(ok, old(src.bytes)), r, src.bytes)
  {
    hide GetText, GetU8, GetU16;
    var name :- src.TakeText(ok);
    if name != PROTOCOL_NAME {
      return Failure(UnrecognizedProtocolName);
    }
    var version :- src.TakeU8();
    if version != PROTOCOL_VERSION {
      return Failure(UnrecognizedProtocolVersion);
    }
    var flags :- src.TakeU8();
    if Bit(flags, 1) {
      return Failure(ConnectReservedSet);
    }
    var keepAlive :- src.TakeU16();
    return Success((flags, keepAlive));
  }

  method DecodeWillFrom(ok: Bytes -> bool, flags: byte, src: Source) returns (r: Result<Option<Will>, DecodeError>)
    modifies src
    ensures Took(GetWill(ok, flags, old(src.bytes)), r, src.bytes)
  {
    hide DecodeList, GetTopic, GetBinary, QoSFrom, Bit;
    if !Bit(flags, 4) {
      return if flags / 8 % 4 != 0 || Bit(flags, 32) then Failure(WillFlagsWithoutWill) else Success(None);
    }
    var bag :- src.TakeProperties(ok, InWill);
    var topic :- src.TakeTopic(ok);
    var qos :- QoSFrom(flags / 8 % 4);
    var payload :- src.TakeBinary();
    return Success(Some(Will(topic, qos, Bit(flags, 32), payload,
      WillProperties(OrElse(bag.payloadIsUtf8, false), bag.messageExpiry, bag.responseTopic,
        bag.correlationData, bag.users, bag.contentType),
      OrElse(bag.willDelay, 0))));
  }

  method DecodeConnectFrom(ok: Bytes -> bool, src: Source) returns (r: Result<Connect, DecodeError>)
    modifies src
    ensures Took(DecodeConnect(ok, old(src.bytes)), r, src.bytes)
  {
    hide DecodeList, GetConnectHeader, GetText, GetWill, GetBinary, ConnectFromBag, Bit;
    var header :- DecodeConnectHeaderFrom(ok, src);
    var (flags, keepAlive) := header;
    var bag :- src.TakeProperties(ok, InConnect);
    var clientId :- src.TakeText(ok);
    var will :- DecodeWillFrom(ok, flags, src);
    var username, password := None, None;
    if Bit(flags, 128) {
      var t :- src.TakeText(ok);
      username := Some(t);
    }
    if Bit(flags, 64) {
      var t :- src.TakeBinary();
      password := Some(t);
    }
    var properties :- ConnectFromBag(bag);
    return Success(Connect(username, password, will, if clientId == [] then None else Some(clientId),
      Bit(flags, 2), KeepAliveFromU16(keepAlive), properties));
  }

  /** `Packet::decode`: one decoder per packet type, and nothing may be left over. */
  method DecodePacketFrom(ok: Bytes -> bool, first: byte, src: Source) returns (r: Result<Packet, DecodeError>)
    modifies src
    ensures r == DecodePacket(ok, first, old(src.bytes))
  {
    hide DecodeConnect, DecodePublish, DecodePubAck, DecodeSubscribe, DecodeDisconnect;
    var kind, flags := first / 16, first % 16;
    var packet: Packet;
    if kind == 1 && flags == 0 {
      var c :- DecodeConnectFrom(ok, src);
      packet := ConnectPacket(c);
    } else if kind == 3 {
      var p :- DecodePublishFrom(ok, flags, src);
      packet := PublishPacket(p);
    } else if kind == 4 && flags == 0 {
      var a :- DecodePubAckFrom(ok, src);
      packet := PubAckPacket(a);
    } else if kind == 8 && flags == 2 {
      var s :- DecodeSubscribeFrom(ok, src);
      packet := SubscribePacket(s);
    } else if kind == 12 && flags == 0 {
      packet := PingReqPacket;
    } else if kind == 13 && flags == 0 {
      packet := PingRespPacket;
    } else if kind == 14 && flags == 0 {
      var d :- DecodeDisconnectFrom(ok, src);
      packet := DisconnectPacket(d);
    } else if (kind in {2, 5, 7, 9, 11, 15} && flags == 0) || (kind in {6, 10} && flags == 2) {
      return Failure(UnmodelledPacket);
    } else {
      return Failure(UnrecognizedPacket);
    }
    return if src.bytes != [] then Failure(TrailingGarbage) else Success(packet);
  }

  // --- Encoding ---

  /** The operations of the encoder were appended, or it failed. */
  ghost predicate Wrote(expected: Encoded, r: Result<(), EncodeError>, before: seq<Op>, after: seq<Op>) {
    match expected
    case Success(ops) => r == Success(()) && after == before + ops
    case Failure(e) => r == Failure(e)
  }

  /** A destination that remembers what was done to it; the accumulators and the byte counter interpret this. */
  class Sink {
    var ops: seq<Op>

    constructor ()
      ensures ops == []
    {
      ops := [];
    }

    method Put(b: Bytes)
      modifies this
      ensures ops == old(ops) + [Op.Put(b)]
    {
      ops := ops + [Op.Put(b)];
    }

    method Share(b: Bytes)
      modifies this
      ensures ops == old(ops) + [Op.Share(b)]
    {
      ops := ops + [Op.Share(b)];
    }

    method PutText(t: Text)
      modifies this
      ensures ops == old(ops) + [TextOp(t)]
    {
      Share(TextBytes(t));
    }

    method PutOptional(t: Option<Text>)
      modifies this
      ensures ops == old(ops) + OptionalText(t)
    {
      if t.Some? {
        PutText(t.value);
      }
    }

    method PutVarint(n: nat, error: EncodeError) returns (r: Result<(), EncodeError>)
      modifies this
      ensures match Varint.Encode(n)
        case Some(b) => r == Success(()) && ops == old(ops) + [Op.Put(b)]
        case None => r == Failure(error)
    {
      if n >= Varint.LIMIT {
        return Failure(error);
      }
      var b := Varint.EncodeLoop(n);
      Put(b.value);
      return Success(());
    }

    method PutProperty(p: Property) returns (r: Result<(), EncodeError>)
      modifies this
      ensures Wrote(EncodeOne(p), r, old(ops), ops)
    {
      hide IsDefault, ToWire;
      if IsDefault(p) {
        return Success(());
      }
      var (id, v) := ToWire(p);
      Put([id]);
      match v {
        case FlagValue(b) => Put([if b then 1 else 0]);
        case U16Value(n) => Put(U16Bytes(n));
        case U32Value(n) => Put(U32Bytes(n));
        case VarintValue(n) =>
          r := PutVarint(n, SubscriptionIdTooHigh);
          return;
        case TextValue(t) => PutText(t);
        case TopicValue(t) => PutText(t);
        case BinaryValue(t) => PutText(t);
        case PairValue(u) =>
          PutText(u.name);
          PutText(u.value);
      }
      return Success(());
    }

    method PutEach(ps: seq<Property>) returns (r: Result<(), EncodeError>)
      modifies this
      ensures Wrote(EncodeEach(ps), r, old(ops), ops)
    {
      hide EncodeOne;
      var i := 0;
      while i < |ps|
        invariant 0 <= i <= |ps|
        invariant Continues(EncodeEach(ps), old(ops), ops, EncodeEach(ps[i..]))
      {
        EachStep(ps[i..], old(ops), ops, EncodeEach(ps));
        assert ps[i..][1..] == ps[i + 1..];
        var _ :- PutProperty(ps[i]);
        i := i + 1;
      }
      return Success(());
    }

    /** `encode_all`: the list is encoded twice, once only to count it. */
    method PutProperties(ps: seq<Property>) returns (r: Result<(), EncodeError>)
      modifies this
      ensures Wrote(EncodeList(ps), r, old(ops), ops)
    {
      hide EncodeEach, OpsBytes;
      var counter := new Sink();
      var _ :- counter.PutEach(ps);
      assert counter.ops == EncodeEach(ps).value;
      var n := Accumulators.CountBytes(counter.ops, true);
      var _ :- PutVarint(n, RemainingLengthTooHigh);
      r := PutEach(ps);
    }
  }

  /** What is left of the list, put behind what was written, makes up the whole. */
  ghost predicate Continues(all: Encoded, start: seq<Op>, now: seq<Op>, rest: Encoded) {
    match rest
    case Success(more) => all.Success? && start + all.value == now + more
    case Failure(e) => all == Failure(e)
  }

  lemma EachStep(ps: seq<Property>, start: seq<Op>, now: seq<Op>, all: Encoded)
    requires ps != [] && Continues(all, start, now, EncodeEach(ps))
    ensures match EncodeOne(ps[0])
      case Success(ops) => Continues(all, start, now + ops, EncodeEach(ps[1..]))
      case Failure(e) => all == Failure(e)
  {
  }

  method EncodePubAckTo(a: PubAck, dst: Sink) returns (r: Result<(), EncodeError>)
    modifies dst
    ensures Wrote(EncodePubAck(a), r, old(dst.ops), dst.ops)
  {
    hide EncodeList, PubAckList;
    dst.Put(U16Bytes(a.id));
    if a.reason == SUCCESS && a.properties == NO_PUBACK_PROPERTIES {
      return Success(());
    }
    dst.Put([a.reason]);
    if a.properties == NO_PUBACK_PROPERTIES {
      return Success(());
    }
    r := dst.PutProperties(PubAckList(a.properties));
  }

  method EncodeDisconnectTo(d: Disconnect, dst: Sink) returns (r: Result<(), EncodeError>)
    modifies dst
    ensures Wrote(EncodeDisconnect(d), r, old(dst.ops), dst.ops)
  {
    hide EncodeList, DisconnectList;
    if d.reason == NORMAL_DISCONNECTION && d.properties == NO_DISCONNECT_PROPERTIES {
      return Success(());
    }
    dst.Put([d.reason]);
    if d.properties == NO_DISCONNECT_PROPERTIES {
      return Success(());
    }
    r := dst.PutProperties(DisconnectList(d.properties));
  }

  method EncodePublishTo(p: Publish, dst: Sink) returns (r: Result<(), EncodeError>)
    modifies dst
    ensures Wrote(EncodePublish(p), r, old(dst.ops), dst.ops)
  {
    hide EncodeList, PublishList, TextOp;
    dst.PutText(p.topic);
    match p.delivery {
      case Once =>
      case Acked(id, _) => dst.Put(U16Bytes(id));
      case Assured(id, _) => dst.Put(U16Bytes(id));
    }
    var _ :- dst.PutProperties(PublishList(p.properties));
    dst.Share(p.payload);
    return Success(());
  }

  /** The option bits, set one after the other. */
  method OptionsBits(o: SubscribeOptions) returns (b: byte)
    ensures b == OptionsByte(o)
  {
    b := QoSCode(o.maximumQoS);
    if o.noLocal {
      b := b + 4;
    }
    if o.retainAsPublished {
      b := b + 8;
    }
    b := b + RetainHandlingCode(o.retainHandling) * 16;
  }

  method EncodeTosTo(ts: seq<SubscribeTo>, dst: Sink)
    requires FiltersFit(ts)
    modifies dst
    ensures dst.ops == old(dst.ops) + TosOps(ts)
  {
    hide OptionsByte, TextOp;
    var i := 0;
    assert ts[0..] == ts;
    while i < |ts|
      invariant 0 <= i <= |ts|
      invariant dst.ops + TosOps(ts[i..]) == old(dst.ops) + TosOps(ts)
    {
      assert ts[i..][0] == ts[i] && ts[i..][1..] == ts[i + 1..];
      ghost var before := dst.ops;
      dst.PutText(ts[i].filter.text);
      var b := OptionsBits(ts[i].options);
      dst.Put([b]);
      assert dst.ops == before + SubscribeToOps(ts[i]);
      i := i + 1;
    }
  }

  method EncodeSubscribeTo(s: Subscribe, dst: Sink) returns (r: Result<(), EncodeError>)
    requires FiltersFit(s.to)
    modifies dst
    ensures Wrote(EncodeSubscribe(s), r, old(dst.ops), dst.ops)
  {
    hide EncodeList, SubscribeList, TosOps;
    dst.Put(U16Bytes(s.id));
    var _ :- dst.PutProperties(SubscribeList(s.subscriptionId, s.users));
    if s.to == [] {
      return Failure(EmptySubscribe);
    }
    EncodeTosTo(s.to, dst);
    return Success(());
  }

  /** The connect flags, set one after the other. */
  method ConnectBits(c: Connect) returns (flags: byte)
    ensures flags == ConnectFlags(c)
  {
    flags := 0;
    if c.username.Some? {
      flags := flags + 128;
    }
    if c.password.Some? {
      flags := flags + 64;
    }
    if c.will.Some? {
      flags := flags + 4;
      if c.will.value.retain {
        flags := flags + 32;
      }
      flags := flags + QoSCode(c.will.value.qos) * 8;
    }
    if c.cleanStart {
      flags := flags + 2;
    }
  }

  method EncodeWillTo(w: Option<Will>, dst: Sink) returns (r: Result<(), EncodeError>)
    modifies dst
    ensures Wrote(EncodeWill(w), r, old(dst.ops), dst.ops)
  {
    hide EncodeList, WillList, TextOp;
    if w.Some? {
      var will := w.value;
      var _ :- dst.PutProperties(WillList(will));
      dst.PutText(will.topic);
      if |will.payload| > 0xFFFF {
        return Failure(WillTooLarge);
      }
      dst.Put(U16Bytes(|will.payload|));
      dst.Share(will.payload);
    }
    return Success(());
  }

  method EncodeConnectTo(c: Connect, dst: Sink) returns (r: Result<(), EncodeError>)
    modifies dst
    ensures Wrote(EncodeConnect(c), r, old(dst.ops), dst.ops)
  {
    hide EncodeList, ConnectList, EncodeWill, OptionalText, TextOp, ConnectFlags;
    var flags := ConnectBits(c);
    dst.Put(TextBytes(PROTOCOL_NAME) + ([PROTOCOL_VERSION] + ([flags] + U16Bytes(KeepAliveToU16(c.keepAlive)))));
    var _ :- dst.PutProperties(ConnectList(c.properties));
    if c.clientId.Some? {
      dst.PutText(c.clientId.value);
    } else {
      dst.Put(TextBytes([]));
    }
    var _ :- EncodeWillTo(c.will, dst);
    dst.PutOptional(c.username);
    dst.PutOptional(c.password);
    return Success(());
  }

  method EncodeBodyTo(p: Packet, dst: Sink) returns (r: Result<(), EncodeError>)
    requires Encodable(p)
    modifies dst
    ensures Wrote(EncodeBody(p), r, old(dst.ops), dst.ops)
  {
    hide EncodeConnect, EncodePublish, EncodePubAck, EncodeSubscribe, EncodeDisconnect;
    match p {
      case ConnectPacket(c) => r := EncodeConnectTo(c, dst);
      case PublishPacket(publish) => r := EncodePublishTo(publish, dst);
      case PubAckPacket(a) => r := EncodePubAckTo(a, dst);
      case SubscribePacket(s) => r := EncodeSubscribeTo(s, dst);
      case PingReqPacket => r := Success(());
      case PingRespPacket => r := Success(());
      case DisconnectPacket(d) => r := EncodeDisconnectTo(d, dst);
    }
  }

  /** `encode_inner`: a counting pass, the fixed header, and the body once more. */
  method EncodePacketTo(p: Packet, dst: Sink) returns (r: Result<(), EncodeError>)
    requires Encodable(p)
    modifies dst
    ensures Wrote(EncodePacket(p), r, old(dst.ops), dst.ops)
  {
    hide EncodeBody, OpsBytes, FirstByte;
    var counter := new Sink();
    var _ :- EncodeBodyTo(p, counter);
    assert counter.ops == EncodeBody(p).value;
    var n := Accumulators.CountBytes(counter.ops, true);
    dst.Put([FirstByte(p)]);
    var _ :- dst.PutVarint(n, RemainingLengthTooHigh);
    r := EncodeBodyTo(p, dst);
  }
}
