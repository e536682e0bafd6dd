/**
 * Encoding and decoding agree.
 *
 * - `PacketRoundTrip`: every well-formed packet encodes if its body fits, and is what its encoding decodes to.
 * - `RoundTripExactly`: of the packets that encode, no others come back.
 * - `ReencodeRoundTrip`: whatever decodes, however unusual its bytes, is well-formed, encodes again in no more
 *   bytes, and decodes to itself. This is the law that `fuzz/fuzz_targets/packet_roundtrip.rs` samples.
 */
module RoundTrip {
  import opened Wrappers
  import opened Bytes
  import opened Packets
  import opened Wire
  import opened Properties
  import opened PropertyLists
  import opened Codec
  import opened RoundTripLists
  import TopicFilter
  import Varint

  /** A list of known bag and size, on the wire. */
  lemma SpreadBack(ok: Bytes -> bool, owner: Owner, ps: seq<Property>, bag: Bag, size: nat, rest: Bytes)
    requires Spreads(ok, owner, ps, bag, size)
    ensures EncodeList(ps).Success? <==> size < Varint.LIMIT
    ensures EncodeList(ps).Success? ==>
      && |OpsBytes(EncodeList(ps).value)| == |Varint.Digits(size)| + size
      && DecodeList(ok, owner, OpsBytes(EncodeList(ps).value) + rest) == Success((bag, rest))
  {
    hide GatherAll, TotalSize, AllWellFormed, EncodeList, DecodeList;
    EncodeListForm(ok, ps);
    if size < Varint.LIMIT {
      ListBack(ok, owner, ps, rest);
    }
  }

  /** The room a property list of this size takes, with its length prefix. */
  function ListLength(size: nat): nat {
    |Varint.Digits(size)| + size
  }

  lemma ListLengthIsMonotone(m: nat, n: nat)
    requires m <= n < Varint.LIMIT
    ensures ListLength(m) <= ListLength(n)
  {
    Varint.LengthIsMonotone(m, n);
  }

  // --- PUBACK ---

  predicate PubAckOk(ok: Bytes -> bool, a: PubAck) {
    IsPubAckReason(a.reason) && PubAckPropertiesOk(ok, a.properties)
  }

  lemma PubAckBack(ok: Bytes -> bool, a: PubAck)
    requires PubAckOk(ok, a) && EncodePubAck(a).Success?
    ensures DecodePubAck(ok, OpsBytes(EncodePubAck(a).value)) == Success((a, []))
  {
    hide IsPubAckReason, EncodeList, DecodeList, PubAckList, Spreads;
    var idOp, reasonOp := Put(U16Bytes(a.id)), Put([a.reason]);
    OneOp(idOp);
    OneOp(reasonOp);
    if a.properties == NO_PUBACK_PROPERTIES {
      if a.reason == SUCCESS {
        assert EncodePubAck(a).value == [idOp];
        assert U16Bytes(a.id) + [] == U16Bytes(a.id);
        U16Back(a.id, []);
      } else {
        OpsConcat([idOp], [reasonOp]);
        U16Back(a.id, [a.reason]);
        assert [a.reason] + [] == [a.reason];
        U8Back(a.reason, []);
      }
    } else {
      var list := EncodeList(PubAckList(a.properties)).value;
      var bytes := OpsBytes(list);
      OpsConcat([reasonOp], list);
      OpsConcat([idOp], [reasonOp] + list);
      U16Back(a.id, [a.reason] + bytes);
      U8Back(a.reason, bytes);
      PubAckListBack(ok, a.properties);
      SpreadBack(ok, InPubAck, PubAckList(a.properties),
        EMPTY.(reasonString := a.properties.reasonString, users := a.properties.users),
        TextWeight(a.properties.reasonString) + UsersWeight(a.properties.users), []);
      assert bytes + [] == bytes;
      assert |bytes| > 0;
    }
  }

  lemma PubAckDecoded(ok: Bytes -> bool, src: Bytes)
    requires DecodePubAck(ok, src).Success? && DecodePubAck(ok, src).value.1 == []
    ensures var a := DecodePubAck(ok, src).value.0;
      PubAckOk(ok, a) && EncodePubAck(a).Success? && |OpsBytes(EncodePubAck(a).value)| <= |src|
  {
    hide IsPubAckReason, EncodeList, DecodeList, PubAckList, Spreads, UsersWeight, TextWeight;
    var a := DecodePubAck(ok, src).value.0;
    var (_, s) := GetPacketId(src).value;
    var idOp, reasonOp := Put(U16Bytes(a.id)), Put([a.reason]);
    OneOp(idOp);
    OneOp(reasonOp);
    OpsConcat([idOp], [reasonOp]);
    assert PubAckOk(ok, a) by { PubAckDecodedOk(ok, src); }
    if s != [] && a.properties != NO_PUBACK_PROPERTIES {
      var (_, t) := GetU8(s).value;
      var bag := DecodeList(ok, InPubAck, t).value.0;
      DecodedListKeeps(ok, InPubAck, t);
      var size := TextWeight(a.properties.reasonString) + UsersWeight(a.properties.users);
      assert size <= Weight(bag);
      PubAckListBack(ok, a.properties);
      SpreadBack(ok, InPubAck, PubAckList(a.properties),
        EMPTY.(reasonString := a.properties.reasonString, users := a.properties.users), size, []);
      var list := EncodeList(PubAckList(a.properties)).value;
      OpsConcat([reasonOp], list);
      OpsConcat([idOp], [reasonOp] + list);
      ListLengthIsMonotone(size, Weight(bag));
    }
  }

  lemma PubAckDecodedOk(ok: Bytes -> bool, src: Bytes)
    requires DecodePubAck(ok, src).Success?
    ensures PubAckOk(ok, DecodePubAck(ok, src).value.0)
  {
    hide DecodeList;
    var (_, s) := GetPacketId(src).value;
    if s != [] {
      DecodedListKeeps(ok, InPubAck, GetU8(s).value.1);
    }
  }

  // --- DISCONNECT ---

  predicate DisconnectOk(ok: Bytes -> bool, d: Disconnect) {
    IsDisconnectReason(d.reason) && DisconnectPropertiesOk(ok, d.properties)
  }

  function DisconnectBag(p: DisconnectProperties): Bag {
    EMPTY.(sessionExpiry := p.sessionExpiry, reasonString := p.reasonString, users := p.users, serverReference := p.serverReference)
  }

  function DisconnectSize(p: DisconnectProperties): nat {
    FixedWeight(p.sessionExpiry, 5) + TextWeight(p.reasonString) + UsersWeight(p.users) + TextWeight(p.serverReference)
  }

  lemma DisconnectBack(ok: Bytes -> bool, d: Disconnect)
    requires DisconnectOk(ok, d) && EncodeDisconnect(d).Success?
    ensures DecodeDisconnect(ok, OpsBytes(EncodeDisconnect(d).value)) == Success((d, []))
  {
    hide IsDisconnectReason, EncodeList, DecodeList, DisconnectList, Spreads;
    OneOp(Put([d.reason]));
    if d.properties == NO_DISCONNECT_PROPERTIES {
      assert [d.reason] + [] == [d.reason];
      U8Back(d.reason, []);
      assert IsDisconnectReason(NORMAL_DISCONNECTION) || d.reason != NORMAL_DISCONNECTION;
    } else {
      var list := EncodeList(DisconnectList(d.properties)).value;
      var bytes := OpsBytes(list);
      OpsConcat([Put([d.reason])], list);
      U8Back(d.reason, bytes);
      DisconnectListBack(ok, d.properties);
      SpreadBack(ok, InDisconnect, DisconnectList(d.properties), DisconnectBag(d.properties), DisconnectSize(d.properties), []);
      assert bytes + [] == bytes;
      assert |bytes| > 0;
    }
  }

  lemma DisconnectDecodedOk(ok: Bytes -> bool, src: Bytes)
    requires DecodeDisconnect(ok, src).Success?
    ensures DisconnectOk(ok, DecodeDisconnect(ok, src).value.0)
  {
    hide DecodeList;
    if src != [] {
      DecodedListKeeps(ok, InDisconnect, GetU8(src).value.1);
    }
  }

  lemma DisconnectDecoded(ok: Bytes -> bool, src: Bytes)
    requires DecodeDisconnect(ok, src).Success? && DecodeDisconnect(ok, src).value.1 == []
    ensures var d := DecodeDisconnect(ok, src).value.0;
      DisconnectOk(ok, d) && EncodeDisconnect(d).Success? && |OpsBytes(EncodeDisconnect(d).value)| <= |src|
  {
    hide IsDisconnectReason, EncodeList, DecodeList, DisconnectList, Spreads, UsersWeight, TextWeight, FixedWeight;
    var d := DecodeDisconnect(ok, src).value.0;
    OneOp(Put([d.reason]));
    assert DisconnectOk(ok, d) by { DisconnectDecodedOk(ok, src); }
    if src != [] && d.properties != NO_DISCONNECT_PROPERTIES {
      var (_, s) := GetU8(src).value;
      var bag := DecodeList(ok, InDisconnect, s).value.0;
      DecodedListKeeps(ok, InDisconnect, s);
      var size := DisconnectSize(d.properties);
      assert size <= Weight(bag);
      DisconnectListBack(ok, d.properties);
      SpreadBack(ok, InDisconnect, DisconnectList(d.properties), DisconnectBag(d.properties), size, []);
      OpsConcat([Put([d.reason])], EncodeList(DisconnectList(d.properties)).value);
      ListLengthIsMonotone(size, Weight(bag));
    }
  }

  // --- PUBLISH ---

  predicate PublishOk(ok: Bytes -> bool, p: Publish) {
    TopicFilter.ValidTopic(ok, p.topic) && PublishPropertiesOk(ok, p.properties)
  }

  function IdBytes(d: Delivery): Bytes {
    match d
    case Once => []
    case Acked(id, _) => U16Bytes(id)
    case Assured(id, _) => U16Bytes(id)
  }

  lemma PublishForm(p: Publish)
    requires EncodePublish(p).Success?
    ensures EncodeList(PublishList(p.properties)).Success?
    ensures OpsBytes(EncodePublish(p).value) ==
      TextBytes(p.topic) + (IdBytes(p.delivery) + (OpsBytes(EncodeList(PublishList(p.properties)).value) + p.payload))
  {
    hide EncodeList, PublishList;
    var list := EncodeList(PublishList(p.properties)).value;
    OpsConcat(list, [Share(p.payload)]);
    OpsConcat(IdOps(p.delivery), list + [Share(p.payload)]);
    OpsConcat([TextOp(p.topic)], IdOps(p.delivery) + (list + [Share(p.payload)]));
    OneOp(Share(p.payload));
    OneOp(TextOp(p.topic));
    if !p.delivery.Once? {
      OneOp(Put(U16Bytes(p.delivery.id)));
    }
  }

  lemma DeliveryBack(p: Publish, rest: Bytes)
    ensures GetDelivery(PublishFlags(p), IdBytes(p.delivery) + rest) == Success((p.delivery, rest))
    ensures Bit(PublishFlags(p), 1) == p.retain
  {
    if p.delivery.Once? {
      assert [] + rest == rest;
    } else {
      U16Back(p.delivery.id, rest);
    }
  }

  lemma PublishBack(ok: Bytes -> bool, p: Publish)
    requires PublishOk(ok, p) && EncodePublish(p).Success?
    ensures DecodePublish(ok, PublishFlags(p), OpsBytes(EncodePublish(p).value)) == Success((p, []))
  {
    hide EncodeList, DecodeList, PublishList, Spreads, EncodePublish, GetTopic, GetDelivery, PublishFlags, IdBytes, PublishBag;
    PublishForm(p);
    var bytes := OpsBytes(EncodeList(PublishList(p.properties)).value);
    TopicBack(ok, p.topic, IdBytes(p.delivery) + (bytes + p.payload));
    DeliveryBack(p, bytes + p.payload);
    PublishListBack(ok, p.properties);
    SpreadBack(ok, InPublish, PublishList(p.properties), PublishBag(p.properties), PublishSize(p.properties), p.payload);
  }

  lemma DeliveryDecoded(flags: byte, src: Bytes)
    requires flags < 16
    ensures var r := GetDelivery(flags, src);
      r.Success? ==>
        && |src| == |IdBytes(r.value.0)| + |r.value.1|
        && forall p: Publish :: p.delivery == r.value.0 && p.retain == Bit(flags, 1) ==> PublishFlags(p) == flags
  {
  }

  lemma PublishDecoded(ok: Bytes -> bool, flags: byte, src: Bytes)
    requires flags < 16 && DecodePublish(ok, flags, src).Success?
    ensures var p := DecodePublish(ok, flags, src).value.0;
      && PublishOk(ok, p) && PublishFlags(p) == flags
      && EncodePublish(p).Success? && |OpsBytes(EncodePublish(p).value)| <= |src|
  {
    hide EncodeList, DecodeList, PublishList, Spreads, GetTopic, GetDelivery, PublishFlags, IdBytes, PublishBag;
    hide UsersWeight, TextWeight, FixedWeight, IdsWeight;
    var p := DecodePublish(ok, flags, src).value.0;
    var (_, s) := GetTopic(ok, src).value;
    var (_, t) := GetDelivery(flags, s).value;
    DeliveryDecoded(flags, s);
    var bag := DecodeList(ok, InPublish, t).value.0;
    DecodedListKeeps(ok, InPublish, t);
    assert PublishSize(p.properties) <= Weight(bag);
    PublishListBack(ok, p.properties);
    SpreadBack(ok, InPublish, PublishList(p.properties), PublishBag(p.properties), PublishSize(p.properties), []);
    PublishForm(p);
    ListLengthIsMonotone(PublishSize(p.properties), Weight(bag));
  }

  // --- SUBSCRIBE ---

  predicate SubscribeToOk(ok: Bytes -> bool, t: SubscribeTo) {
    ParsedFilter(ok, t.filter) && !(t.filter.kind.Shared? && t.options.noLocal)
  }

  predicate SubscribeOk(ok: Bytes -> bool, s: Subscribe) {
    && SubscribePropertiesOk(ok, s.subscriptionId, s.users)
    && s.to != []
    && forall i :: 0 <= i < |s.to| ==> SubscribeToOk(ok, s.to[i])
  }

  lemma OptionsBack(o: SubscribeOptions)
    ensures OptionsFrom(OptionsByte(o)) == Success(o)
  {
  }

  lemma SubscribeToForm(t: SubscribeTo)
    requires |t.filter.text| <= 0xFFFF
    ensures OpsBytes(SubscribeToOps(t)) == TextBytes(t.filter.text) + [OptionsByte(t.options)]
  {
    var a, b := TextOp(t.filter.text), Put([OptionsByte(t.options)]);
    assert SubscribeToOps(t) == [a] + [b];
    OpsConcat([a], [b]);
    OneOp(a);
    OneOp(b);
  }

  lemma {:induction false} TosBack(ok: Bytes -> bool, ts: seq<SubscribeTo>)
    requires FiltersFit(ts) && forall i :: 0 <= i < |ts| ==> SubscribeToOk(ok, ts[i])
    ensures GetTos(ok, OpsBytes(TosOps(ts))) == Success(ts)
  {
    hide OptionsByte, OptionsFrom, GetFilter, ParsedFilter;
    if ts != [] {
      TosBack(ok, ts[1..]);
      var t, rest := ts[0], OpsBytes(TosOps(ts[1..]));
      SubscribeToForm(t);
      OpsConcat(SubscribeToOps(t), TosOps(ts[1..]));
      var b := OptionsByte(t.options);
      assert OpsBytes(TosOps(ts)) == TextBytes(t.filter.text) + ([b] + rest);
      FilterBack(ok, t.filter, [b] + rest);
      U8Back(b, rest);
      OptionsBack(t.options);
      assert [t] + ts[1..] == ts;
    }
  }

  lemma {:induction false} TosDecoded(ok: Bytes -> bool, src: Bytes)
    ensures var r := GetTos(ok, src);
      r.Success? ==>
        && FiltersFit(r.value)
        && (forall i :: 0 <= i < |r.value| ==> SubscribeToOk(ok, r.value[i]))
        && |OpsBytes(TosOps(r.value))| == |src|
    decreases |src|
  {
    hide OptionsByte, OptionsFrom, GetFilter;
    var r := GetTos(ok, src);
    if src != [] && r.Success? {
      var (t, s) := GetSubscribeTo(ok, src).value;
      TosDecoded(ok, s);
      var more := GetTos(ok, s).value;
      assert r.value[1..] == more && r.value[0] == t;
      SubscribeToForm(t);
      OpsConcat(SubscribeToOps(t), TosOps(more));
    }
  }

  function SubscribeBag(s: Subscribe): Bag {
    EMPTY.(subscriptionIds := if s.subscriptionId.Some? then [s.subscriptionId.value] else [], users := s.users)
  }

  function SubscribeSize(s: Subscribe): nat {
    (if s.subscriptionId.Some? then IdWeight(s.subscriptionId.value) else 0) + UsersWeight(s.users)
  }

  lemma SubscribeForm(s: Subscribe)
    requires FiltersFit(s.to) && EncodeSubscribe(s).Success?
    ensures EncodeList(SubscribeList(s.subscriptionId, s.users)).Success?
    ensures OpsBytes(EncodeSubscribe(s).value) ==
      U16Bytes(s.id) + (OpsBytes(EncodeList(SubscribeList(s.subscriptionId, s.users)).value) + OpsBytes(TosOps(s.to)))
  {
    hide EncodeList, SubscribeList;
    var list := EncodeList(SubscribeList(s.subscriptionId, s.users)).value;
    OpsConcat(list, TosOps(s.to));
    OpsConcat([Put(U16Bytes(s.id))], list + TosOps(s.to));
    OneOp(Put(U16Bytes(s.id)));
  }

  lemma SubscribeBack(ok: Bytes -> bool, s: Subscribe)
    requires SubscribeOk(ok, s) && FiltersFit(s.to) && EncodeSubscribe(s).Success?
    ensures DecodeSubscribe(ok, OpsBytes(EncodeSubscribe(s).value)) == Success((s, []))
  {
    hide EncodeList, DecodeList, SubscribeList, Spreads, EncodeSubscribe, GetTos, TosOps, SubscribeToOk;
    SubscribeForm(s);
    var bytes, tos := OpsBytes(EncodeList(SubscribeList(s.subscriptionId, s.users)).value), OpsBytes(TosOps(s.to));
    U16Back(s.id, bytes + tos);
    SubscribeListBack(ok, s.subscriptionId, s.users);
    SpreadBack(ok, InSubscribe, SubscribeList(s.subscriptionId, s.users), SubscribeBag(s), SubscribeSize(s), tos);
    TosBack(ok, s.to);
  }

  lemma SubscribeWeight(bag: Bag, s: Subscribe)
    requires s.users == bag.users
    requires s.subscriptionId == if bag.subscriptionIds == [] then None else Some(bag.subscriptionIds[0])
    ensures SubscribeSize(s) <= Weight(bag)
  {
    FirstIdWeight(bag.subscriptionIds);
  }

  lemma {:induction false} FirstIdWeight(ids: seq<NonZeroU32>)
    ensures ids != [] ==> IdWeight(ids[0]) <= IdsWeight(ids)
  {
    if |ids| > 1 {
      FirstIdWeight(ids[..|ids| - 1]);
    }
  }

  lemma SubscribeDecoded(ok: Bytes -> bool, src: Bytes)
    requires DecodeSubscribe(ok, src).Success?
    ensures var s := DecodeSubscribe(ok, src).value.0;
      && SubscribeOk(ok, s) && FiltersFit(s.to)
      && EncodeSubscribe(s).Success? && |OpsBytes(EncodeSubscribe(s).value)| <= |src|
  {
    hide EncodeList, DecodeList, SubscribeList, Spreads, GetTos, TosOps, SubscribeToOk, UsersWeight, IdWeight, Weight, SubscribeBag;
    var s := DecodeSubscribe(ok, src).value.0;
    var (_, t) := GetPacketId(src).value;
    var (bag, u) := DecodeList(ok, InSubscribe, t).value;
    DecodedListKeeps(ok, InSubscribe, t);
    TosDecoded(ok, u);
    SubscribeWeight(bag, s);
    SubscribeListBack(ok, s.subscriptionId, s.users);
    assert Spreads(ok, InSubscribe, SubscribeList(s.subscriptionId, s.users), SubscribeBag(s), SubscribeSize(s)) by {
      SubscribeSpreads(ok, s);
    }
    SpreadBack(ok, InSubscribe, SubscribeList(s.subscriptionId, s.users), SubscribeBag(s), SubscribeSize(s), []);
    SubscribeForm(s);
    ListLengthIsMonotone(SubscribeSize(s), Weight(bag));
  }

  lemma SubscribeSpreads(ok: Bytes -> bool, s: Subscribe)
    requires SubscribePropertiesOk(ok, s.subscriptionId, s.users)
    ensures Spreads(ok, InSubscribe, SubscribeList(s.subscriptionId, s.users), SubscribeBag(s), SubscribeSize(s))
  {
    hide Spreads, SubscribeList;
    SubscribeListBack(ok, s.subscriptionId, s.users);
  }

  // --- CONNECT ---

  predicate WillOk(ok: Bytes -> bool, w: Will) {
    TopicFilter.ValidTopic(ok, w.topic) && |w.payload| <= 0xFFFF && WillPropertiesOk(ok, w.properties)
  }

  /** The string rule must admit the protocol name and, for an absent client identifier, the empty string. */
  predicate ConnectOk(ok: Bytes -> bool, c: Connect) {
    && ok(PROTOCOL_NAME)
    && (if c.clientId.Some? then c.clientId.value != [] && ok(c.clientId.value) else ok([]))
    && OptText(ok, c.username)
    && (c.will.Some? ==> WillOk(ok, c.will.value))
    && ConnectPropertiesOk(ok, c.properties)
  }

  lemma ConnectFlagsBack(c: Connect)
    ensures var f := ConnectFlags(c);
      && !Bit(f, 1) && Bit(f, 2) == c.cleanStart && Bit(f, 4) == c.will.Some?
      && Bit(f, 64) == c.password.Some? && Bit(f, 128) == c.username.Some?
      && (if c.will.Some? then QoSFrom(f / 8 % 4) == Success(c.will.value.qos) && Bit(f, 32) == c.will.value.retain
          else f / 8 % 4 == 0 && !Bit(f, 32))
  {
    var w := c.will.Some?;
    FlagBits(ConnectFlags(c), if c.username.Some? then 1 else 0, if c.password.Some? then 1 else 0,
      if w && c.will.value.retain then 1 else 0, if w then QoSCode(c.will.value.qos) else 0,
      if w then 1 else 0, if c.cleanStart then 1 else 0);
  }

  lemma FlagBits(f: nat, username: nat, password: nat, retain: nat, qos: nat, will: nat, clean: nat)
    requires username < 2 && password < 2 && retain < 2 && qos < 3 && will < 2 && clean < 2
    requires f == 128 * username + 64 * password + 32 * retain + 8 * qos + 4 * will + 2 * clean
    ensures f % 2 == 0 && f / 2 % 2 == clean && f / 4 % 2 == will && f / 8 % 4 == qos
    ensures f / 32 % 2 == retain && f / 64 % 2 == password && f / 128 % 2 == username
  {
  }

  lemma ConnectHeaderBack(ok: Bytes -> bool, c: Connect, rest: Bytes)
    requires ok(PROTOCOL_NAME)
    ensures GetConnectHeader(ok, ConnectHeader(c) + rest) == Success(((ConnectFlags(c), KeepAliveToU16(c.keepAlive)), rest))
    ensures |ConnectHeader(c)| == 10
  {
    hide ConnectFlags, Bit;
    assert !Bit(ConnectFlags(c), 1) by { ConnectFlagsBack(c); }
    var u := U16Bytes(KeepAliveToU16(c.keepAlive)) + rest;
    var t := [ConnectFlags(c)] + u;
    var s := [PROTOCOL_VERSION] + t;
    assert ConnectHeader(c) + rest == TextBytes(PROTOCOL_NAME) + s;
    TextBack(ok, PROTOCOL_NAME, s);
    U8Back(PROTOCOL_VERSION, t);
    U8Back(ConnectFlags(c), u);
    U16Back(KeepAliveToU16(c.keepAlive), rest);
  }

  lemma WillForm(w: Will)
    requires EncodeWill(Some(w)).Success?
    ensures EncodeList(WillList(w)).Success? && |w.payload| <= 0xFFFF
    ensures OpsBytes(EncodeWill(Some(w)).value) ==
      OpsBytes(EncodeList(WillList(w)).value) + (TextBytes(w.topic) + TextBytes(w.payload))
  {
    hide EncodeList, WillList;
    var list := EncodeList(WillList(w)).value;
    var a, b, c := TextOp(w.topic), Put(U16Bytes(|w.payload|)), Share(w.payload);
    assert [a, b, c] == [a] + ([b] + [c]);
    OpsConcat(list, [a, b, c]);
    OpsConcat([a], [b] + [c]);
    OpsConcat([b], [c]);
    OneOp(a);
    OneOp(b);
    OneOp(c);
  }

  lemma WillBack(ok: Bytes -> bool, c: Connect, rest: Bytes)
    requires (c.will.Some? ==> WillOk(ok, c.will.value)) && EncodeWill(c.will).Success?
    ensures GetWill(ok, ConnectFlags(c), OpsBytes(EncodeWill(c.will).value) + rest) == Success((c.will, rest))
  {
    hide EncodeList, DecodeList, WillList, Spreads, ConnectFlags, Bit, GetTopic, GetBinary, QoSFrom;
    ConnectFlagsBack(c);
    if c.will.None? {
      assert [] + rest == rest;
    } else {
      var w := c.will.value;
      WillForm(w);
      var bytes := OpsBytes(EncodeList(WillList(w)).value);
      var t := TextBytes(w.payload) + rest;
      var s := TextBytes(w.topic) + t;
      assert OpsBytes(EncodeWill(c.will).value) + rest == bytes + s;
      WillListBack(ok, w);
      SpreadBack(ok, InWill, WillList(w), WillBag(w), WillSize(w), s);
      TopicBack(ok, w.topic, t);
      BinaryBack(w.payload, rest);
    }
  }

  lemma ConnectForm(c: Connect)
    requires EncodeConnect(c).Success?
    ensures EncodeList(ConnectList(c.properties)).Success? && EncodeWill(c.will).Success?
    ensures OpsBytes(EncodeConnect(c).value) ==
      ConnectHeader(c) + (OpsBytes(EncodeList(ConnectList(c.properties)).value) + (TextBytes(OrElse(c.clientId, [])) +
      (OpsBytes(EncodeWill(c.will).value) + (OpsBytes(OptionalText(c.username)) + OpsBytes(OptionalText(c.password))))))
  {
    hide EncodeList, ConnectList, EncodeWill, ConnectHeader, OptionalText, TextBytes;
    var list, will := EncodeList(ConnectList(c.properties)).value, EncodeWill(c.will).value;
    var user, pass := OptionalText(c.username), OptionalText(c.password);
    var id, head := ClientIdOp(c.clientId), Put(ConnectHeader(c));
    OpsConcat(user, pass);
    OpsConcat(will, user + pass);
    OpsConcat([id], will + (user + pass));
    OpsConcat(list, [id] + (will + (user + pass)));
    OpsConcat([head], list + ([id] + (will + (user + pass))));
    OneOp(id);
    OneOp(head);
  }

  lemma OptionalTextBack(ok: Bytes -> bool, t: Option<Text>, rest: Bytes)
    ensures OptText(ok, t) ==> GetOptionalText(ok, t.Some?, OpsBytes(OptionalText(t)) + rest) == Success((t, rest))
    ensures GetOptionalBinary(t.Some?, OpsBytes(OptionalText(t)) + rest) == Success((t, rest))
    ensures |OpsBytes(OptionalText(t))| == if t.Some? then 2 + |t.value| else 0
  {
    if t.None? {
      assert [] + rest == rest;
    } else {
      OneOp(TextOp(t.value));
      BinaryBack(t.value, rest);
    }
  }

  lemma ConnectBack(ok: Bytes -> bool, c: Connect)
    requires ConnectOk(ok, c) && EncodeConnect(c).Success?
    ensures DecodeConnect(ok, OpsBytes(EncodeConnect(c).value)) == Success((c, []))
  {
    hide EncodeList, DecodeList, ConnectList, Spreads, EncodeConnect, EncodeWill, ConnectFlags, Bit, ConnectHeader;
    hide GetConnectHeader, GetText, GetWill, GetOptionalText, GetOptionalBinary, OptionalText, TextBytes, ConnectFromBag, ConnectBag;
    ConnectForm(c);
    ConnectFlagsBack(c);
    var id: Text := OrElse(c.clientId, []);
    var x5 := OpsBytes(OptionalText(c.password));
    var x4 := OpsBytes(OptionalText(c.username)) + x5;
    var x3 := OpsBytes(EncodeWill(c.will).value) + x4;
    var x2 := TextBytes(id) + x3;
    var x1 := OpsBytes(EncodeList(ConnectList(c.properties)).value) + x2;
    ConnectHeaderBack(ok, c, x1);
    ConnectListBack(ok, c.properties);
    SpreadBack(ok, InConnect, ConnectList(c.properties), ConnectBag(c.properties), ConnectSize(c.properties), x2);
    TextBack(ok, id, x3);
    WillBack(ok, c, x4);
    OptionalTextBack(ok, c.username, x5);
    OptionalTextBack(ok, c.password, []);
    assert x5 + [] == x5;
    ConnectBagBack(c.properties);
    assert KeepAliveFromU16(KeepAliveToU16(c.keepAlive)) == c.keepAlive;
  }

  lemma WillWeight(bag: Bag, w: Will)
    requires w.delay == OrElse(bag.willDelay, 0)
    requires w.properties == WillProperties(OrElse(bag.payloadIsUtf8, false), bag.messageExpiry, bag.responseTopic,
      bag.correlationData, bag.users, bag.contentType)
    ensures WillSize(w) <= Weight(bag)
  {
  }

  lemma ConnectWeight(bag: Bag)
    requires ConnectFromBag(bag).Success?
    ensures ConnectSize(ConnectFromBag(bag).value) <= Weight(bag)
  {
  }

  lemma WillDecoded(ok: Bytes -> bool, flags: byte, src: Bytes)
    requires GetWill(ok, flags, src).Success?
    ensures var (w, rest) := GetWill(ok, flags, src).value;
      && (w.Some? ==> WillOk(ok, w.value))
      && EncodeWill(w).Success? && |OpsBytes(EncodeWill(w).value)| + |rest| <= |src|
  {
    hide EncodeList, DecodeList, WillList, Spreads, Bit, GetTopic, GetBinary, QoSFrom, WillSize, Weight;
    var (will, rest) := GetWill(ok, flags, src).value;
    if will.Some? {
      var w := will.value;
      var (bag, s) := DecodeList(ok, InWill, src).value;
      DecodedListKeeps(ok, InWill, src);
      WillWeight(bag, w);
      WillListBack(ok, w);
      SpreadBack(ok, InWill, WillList(w), WillBag(w), WillSize(w), []);
      WillForm(w);
      ListLengthIsMonotone(WillSize(w), Weight(bag));
    }
  }

  lemma ConnectHeaderDecoded(ok: Bytes -> bool, src: Bytes)
    requires GetConnectHeader(ok, src).Success?
    ensures ok(PROTOCOL_NAME) && |src| == 10 + |GetConnectHeader(ok, src).value.1|
  {
  }

  lemma ConnectDecoded(ok: Bytes -> bool, src: Bytes)
    requires DecodeConnect(ok, src).Success? && DecodeConnect(ok, src).value.1 == []
    ensures var c := DecodeConnect(ok, src).value.0;
      ConnectOk(ok, c) && EncodeConnect(c).Success? && |OpsBytes(EncodeConnect(c).value)| <= |src|
  {
    hide EncodeList, DecodeList, ConnectList, Spreads, EncodeWill, ConnectFlags, Bit, ConnectHeader, WillOk;
    hide GetConnectHeader, GetText, GetWill, OptionalText, TextBytes, ConnectFromBag, ConnectBag, ConnectSize, Weight;
    var c := DecodeConnect(ok, src).value.0;
    var ((flags, _), s) := GetConnectHeader(ok, src).value;
    ConnectHeaderDecoded(ok, src);
    var (bag, t) := DecodeList(ok, InConnect, s).value;
    DecodedListKeeps(ok, InConnect, s);
    var (id, u) := GetText(ok, t).value;
    assert TextBytes(id) == TextBytes(OrElse(c.clientId, []));
    WillDecoded(ok, flags, u);
    OptionalTextBack(ok, c.username, []);
    OptionalTextBack(ok, c.password, []);
    ConnectWeight(bag);
    assert ConnectPropertiesOk(ok, c.properties) by { ConnectPropertiesDecoded(ok, bag); }
    ConnectListBack(ok, c.properties);
    SpreadBack(ok, InConnect, ConnectList(c.properties), ConnectBag(c.properties), ConnectSize(c.properties), []);
    ConnectForm(c);
    ListLengthIsMonotone(ConnectSize(c.properties), Weight(bag));
    assert |ConnectHeader(c)| == 10 by { ConnectHeaderBack(ok, c, []); }
  }

  lemma ConnectPropertiesDecoded(ok: Bytes -> bool, bag: Bag)
    requires WellFormedBag(ok, bag) && ConnectFromBag(bag).Success?
    ensures ConnectPropertiesOk(ok, ConnectFromBag(bag).value)
  {
  }

  // --- Whole packets ---

  /** Exactly what a packet must satisfy for the two directions to agree; its size is asked of the encoder. */
  predicate PacketOk(ok: Bytes -> bool, p: Packet) {
    match p
    case ConnectPacket(c) => ConnectOk(ok, c)
    case PublishPacket(publish) => PublishOk(ok, publish)
    case PubAckPacket(a) => PubAckOk(ok, a)
    case SubscribePacket(s) => SubscribeOk(ok, s)
    case DisconnectPacket(d) => DisconnectOk(ok, d)
    case PingReqPacket => true
    case PingRespPacket => true
  }

  lemma OkIsEncodable(ok: Bytes -> bool, p: Packet)
    requires PacketOk(ok, p)
    ensures Encodable(p)
  {
  }

  function PubAckLength(a: PubAck): nat {
    if a.properties != NO_PUBACK_PROPERTIES then
      3 + ListLength(TextWeight(a.properties.reasonString) + UsersWeight(a.properties.users))
    else if a.reason != SUCCESS then 3
    else 2
  }

  function DisconnectLength(d: Disconnect): nat {
    if d.properties != NO_DISCONNECT_PROPERTIES then 1 + ListLength(DisconnectSize(d.properties))
    else if d.reason != NORMAL_DISCONNECTION then 1
    else 0
  }

  function TosLength(ts: seq<SubscribeTo>): nat {
    if ts == [] then 0 else 3 + |ts[0].filter.text| + TosLength(ts[1..])
  }

  function WillLength(w: Option<Will>): nat {
    if w.None? then 0 else ListLength(WillSize(w.value)) + 4 + |w.value.topic| + |w.value.payload|
  }

  function OptionalLength(t: Option<Text>): nat {
    if t.Some? then 2 + |t.value| else 0
  }

  /** The length of the body of a packet, as arithmetic on its fields. */
  function BodyLength(p: Packet): nat {
    match p
    case ConnectPacket(c) =>
      12 + ListLength(ConnectSize(c.properties)) + |OrElse(c.clientId, [])| + WillLength(c.will)
      + OptionalLength(c.username) + OptionalLength(c.password)
    case PublishPacket(publish) =>
      2 + |publish.topic| + |IdBytes(publish.delivery)| + ListLength(PublishSize(publish.properties)) + |publish.payload|
    case PubAckPacket(a) => PubAckLength(a)
    case SubscribePacket(s) => 2 + ListLength(SubscribeSize(s)) + TosLength(s.to)
    case DisconnectPacket(d) => DisconnectLength(d)
    case PingReqPacket => 0
    case PingRespPacket => 0
  }

  lemma {:induction false} TosOpsLength(ts: seq<SubscribeTo>)
    requires FiltersFit(ts)
    ensures |OpsBytes(TosOps(ts))| == TosLength(ts)
  {
    if ts != [] {
      TosOpsLength(ts[1..]);
      SubscribeToForm(ts[0]);
      OpsConcat(SubscribeToOps(ts[0]), TosOps(ts[1..]));
    }
  }

  lemma PubAckEncodes(ok: Bytes -> bool, a: PubAck)
    requires PubAckOk(ok, a)
    ensures PubAckLength(a) < Varint.LIMIT ==> EncodePubAck(a).Success?
    ensures EncodePubAck(a).Success? ==> |OpsBytes(EncodePubAck(a).value)| == PubAckLength(a)
  {
    hide IsPubAckReason, EncodeList, PubAckList, Spreads, UsersWeight, TextWeight;
    var idOp, reasonOp := Put(U16Bytes(a.id)), Put([a.reason]);
    OneOp(idOp);
    OneOp(reasonOp);
    OpsConcat([idOp], [reasonOp]);
    PubAckListBack(ok, a.properties);
    SpreadBack(ok, InPubAck, PubAckList(a.properties),
      EMPTY.(reasonString := a.properties.reasonString, users := a.properties.users),
      TextWeight(a.properties.reasonString) + UsersWeight(a.properties.users), []);
    var list := EncodeList(PubAckList(a.properties));
    if list.Success? {
      OpsConcat([reasonOp], list.value);
      OpsConcat([idOp], [reasonOp] + list.value);
    }
  }

  lemma DisconnectEncodes(ok: Bytes -> bool, d: Disconnect)
    requires DisconnectOk(ok, d)
    ensures DisconnectLength(d) < Varint.LIMIT ==> EncodeDisconnect(d).Success?
    ensures EncodeDisconnect(d).Success? ==> |OpsBytes(EncodeDisconnect(d).value)| == DisconnectLength(d)
  {
    hide IsDisconnectReason, EncodeList, DisconnectList, Spreads, UsersWeight, TextWeight, FixedWeight;
    OneOp(Put([d.reason]));
    DisconnectListBack(ok, d.properties);
    SpreadBack(ok, InDisconnect, DisconnectList(d.properties), DisconnectBag(d.properties), DisconnectSize(d.properties), []);
    var list := EncodeList(DisconnectList(d.properties));
    if list.Success? {
      OpsConcat([Put([d.reason])], list.value);
    }
  }

  lemma PublishEncodes(ok: Bytes -> bool, p: Publish)
    requires PublishOk(ok, p)
    ensures BodyLength(PublishPacket(p)) < Varint.LIMIT ==> EncodePublish(p).Success?
    ensures EncodePublish(p).Success? ==> |OpsBytes(EncodePublish(p).value)| == BodyLength(PublishPacket(p))
  {
    hide EncodeList, PublishList, Spreads, PublishSize, IdBytes;
    PublishListBack(ok, p.properties);
    SpreadBack(ok, InPublish, PublishList(p.properties), PublishBag(p.properties), PublishSize(p.properties), []);
    if EncodePublish(p).Success? {
      PublishForm(p);
    }
  }

  lemma SubscribeEncodes(ok: Bytes -> bool, s: Subscribe)
    requires SubscribeOk(ok, s) && FiltersFit(s.to)
    ensures BodyLength(SubscribePacket(s)) < Varint.LIMIT ==> EncodeSubscribe(s).Success?
    ensures EncodeSubscribe(s).Success? ==> |OpsBytes(EncodeSubscribe(s).value)| == BodyLength(SubscribePacket(s))
  {
    hide EncodeList, SubscribeList, Spreads, SubscribeSize, TosOps, TosLength, SubscribeBag;
    assert Spreads(ok, InSubscribe, SubscribeList(s.subscriptionId, s.users), SubscribeBag(s), SubscribeSize(s)) by {
      SubscribeSpreads(ok, s);
    }
    SpreadBack(ok, InSubscribe, SubscribeList(s.subscriptionId, s.users), SubscribeBag(s), SubscribeSize(s), []);
    if EncodeSubscribe(s).Success? {
      SubscribeForm(s);
      TosOpsLength(s.to);
    }
  }

  lemma WillEncodes(ok: Bytes -> bool, w: Option<Will>)
    requires w.Some? ==> WillOk(ok, w.value)
    ensures WillLength(w) < Varint.LIMIT ==> EncodeWill(w).Success?
    ensures EncodeWill(w).Success? ==> |OpsBytes(EncodeWill(w).value)| == WillLength(w)
  {
    hide EncodeList, WillList, Spreads, WillSize;
    if w.Some? {
      WillListBack(ok, w.value);
      SpreadBack(ok, InWill, WillList(w.value), WillBag(w.value), WillSize(w.value), []);
      if EncodeWill(w).Success? {
        WillForm(w.value);
      }
    }
  }

  lemma ConnectEncodes(ok: Bytes -> bool, c: Connect)
    requires ConnectOk(ok, c)
    ensures BodyLength(ConnectPacket(c)) < Varint.LIMIT ==> EncodeConnect(c).Success?
    ensures EncodeConnect(c).Success? ==> |OpsBytes(EncodeConnect(c).value)| == BodyLength(ConnectPacket(c))
  {
    hide EncodeList, ConnectList, Spreads, ConnectSize, EncodeWill, WillLength, ConnectHeader, OptionalText;
    ConnectListBack(ok, c.properties);
    SpreadBack(ok, InConnect, ConnectList(c.properties), ConnectBag(c.properties), ConnectSize(c.properties), []);
    WillEncodes(ok, c.will);
    if EncodeConnect(c).Success? {
      ConnectForm(c);
      OptionalTextBack(ok, c.username, []);
      OptionalTextBack(ok, c.password, []);
      assert |ConnectHeader(c)| == 10 by { ConnectHeaderBack(ok, c, []); }
    }
  }

  /** A well-formed packet encodes exactly when its body fits a four-byte length, and then in that many bytes. */
  lemma EncodesExactly(ok: Bytes -> bool, p: Packet)
    requires PacketOk(ok, p) && Encodable(p)
    ensures EncodePacket(p).Success? <==> BodyLength(p) < Varint.LIMIT
    ensures EncodePacket(p).Success? ==>
      |OpsBytes(EncodePacket(p).value)| == 1 + |Varint.Digits(BodyLength(p))| + BodyLength(p)
  {
    hide EncodeConnect, EncodePublish, EncodePubAck, EncodeSubscribe, EncodeDisconnect, BodyLength;
    hide ConnectOk, PublishOk, PubAckOk, SubscribeOk, DisconnectOk;
    match p {
      case ConnectPacket(c) => ConnectEncodes(ok, c);
      case PublishPacket(publish) => PublishEncodes(ok, publish);
      case PubAckPacket(a) => PubAckEncodes(ok, a); ControlLengths(p);
      case SubscribePacket(s) => SubscribeEncodes(ok, s);
      case DisconnectPacket(d) => DisconnectEncodes(ok, d); ControlLengths(p);
      case PingReqPacket => ControlLengths(p);
      case PingRespPacket => ControlLengths(p);
    }
    if EncodePacket(p).Success? {
      PacketForm(p);
    }
  }

  lemma OkEncodes(ok: Bytes -> bool, p: Packet)
    requires PacketOk(ok, p) && BodyLength(p) < Varint.LIMIT
    ensures Encodable(p) && EncodePacket(p).Success?
  {
    OkIsEncodable(ok, p);
    EncodesExactly(ok, p);
  }

  lemma ControlLengths(p: Packet)
    ensures p.PubAckPacket? ==> BodyLength(p) == PubAckLength(p.puback)
    ensures p.DisconnectPacket? ==> BodyLength(p) == DisconnectLength(p.disconnect)
    ensures p.PingReqPacket? || p.PingRespPacket? ==> BodyLength(p) == 0
  {
  }

  lemma BodyBack(ok: Bytes -> bool, p: Packet)
    requires PacketOk(ok, p) && Encodable(p) && EncodeBody(p).Success?
    ensures DecodePacket(ok, FirstByte(p), OpsBytes(EncodeBody(p).value)) == Success(p)
  {
    hide DecodeConnect, DecodePublish, DecodePubAck, DecodeSubscribe, DecodeDisconnect, PublishFlags;
    hide EncodeConnect, EncodePublish, EncodePubAck, EncodeSubscribe, EncodeDisconnect;
    hide ConnectOk, PublishOk, PubAckOk, SubscribeOk, DisconnectOk;
    match p
    case ConnectPacket(c) => ConnectBack(ok, c);
    case PublishPacket(publish) => PublishBack(ok, publish);
    case PubAckPacket(a) => PubAckBack(ok, a);
    case SubscribePacket(s) => SubscribeBack(ok, s);
    case DisconnectPacket(d) => DisconnectBack(ok, d);
    case PingReqPacket =>
    case PingRespPacket =>
  }

  /** What an encoded packet looks like: first byte, length of the body, body. */
  lemma PacketForm(p: Packet)
    requires Encodable(p) && EncodePacket(p).Success?
    ensures EncodeBody(p).Success? && |OpsBytes(EncodeBody(p).value)| < Varint.LIMIT
    ensures var body := OpsBytes(EncodeBody(p).value);
      OpsBytes(EncodePacket(p).value) == [FirstByte(p)] + (Varint.Encode(|body|).value + body)
  {
  }

  lemma HeaderOf(first: byte, body: Bytes, rest: Bytes)
    requires |body| < Varint.LIMIT
    ensures var n := Varint.Encode(|body|).value;
      FixedHeader([first] + (n + body) + rest) == Success(Some((first, |body|, 1 + |n|)))
  {
    var n := Varint.Encode(|body|).value;
    var src := [first] + (n + body) + rest;
    assert src[1..] == n + (body + rest);
    Varint.RoundTrip(|body|, body + rest);
  }

  lemma EncodedComesBack(ok: Bytes -> bool, p: Packet)
    requires PacketOk(ok, p) && Encodable(p) && EncodePacket(p).Success?
    ensures DecodeFull(ok, OpsBytes(EncodePacket(p).value)) == Success(p)
  {
    hide EncodeBody, DecodePacket, EncodePacket, FixedHeader, PacketOk;
    PacketForm(p);
    var body := OpsBytes(EncodeBody(p).value);
    var n := Varint.Encode(|body|).value;
    var src := OpsBytes(EncodePacket(p).value);
    HeaderOf(FirstByte(p), body, []);
    assert [FirstByte(p)] + (n + body) + [] == src;
    assert src[1 + |n|..] == body;
    BodyBack(ok, p);
  }

  /** Well-formed packets with the same encoding are the same packet. */
  lemma EncodingIsInjective(ok: Bytes -> bool, p: Packet, q: Packet)
    requires PacketOk(ok, p) && Encodable(p) && EncodePacket(p).Success?
    requires PacketOk(ok, q) && Encodable(q) && EncodePacket(q).Success?
    requires OpsBytes(EncodePacket(p).value) == OpsBytes(EncodePacket(q).value)
    ensures p == q
  {
    hide EncodePacket, DecodeFull, PacketOk;
    EncodedComesBack(ok, p);
    EncodedComesBack(ok, q);
  }

  lemma BodyDecoded(ok: Bytes -> bool, first: byte, body: Bytes)
    requires DecodePacket(ok, first, body).Success?
    ensures var p := DecodePacket(ok, first, body).value;
      && PacketOk(ok, p) && Encodable(p) && FirstByte(p) == first
      && EncodeBody(p).Success? && |OpsBytes(EncodeBody(p).value)| <= |body|
  {
    hide DecodeConnect, DecodePublish, DecodePubAck, DecodeSubscribe, DecodeDisconnect, PublishFlags;
    hide EncodeConnect, EncodePublish, EncodePubAck, EncodeSubscribe, EncodeDisconnect;
    hide ConnectOk, PublishOk, PubAckOk, SubscribeOk, DisconnectOk;
    var p := DecodePacket(ok, first, body).value;
    match p
    case ConnectPacket(c) => ConnectDecoded(ok, body);
    case PublishPacket(publish) => PublishDecoded(ok, first % 16, body);
    case PubAckPacket(a) => PubAckDecoded(ok, body);
    case SubscribePacket(s) => SubscribeDecoded(ok, body);
    case DisconnectPacket(d) => DisconnectDecoded(ok, body);
    case PingReqPacket =>
    case PingRespPacket =>
  }

  /** Whatever decodes is well-formed, encodes again in no more bytes, and decodes to itself. */
  lemma ReencodeRoundTrip(ok: Bytes -> bool, src: Bytes)
    ensures DecodeFull(ok, src).Success? ==>
      var p := DecodeFull(ok, src).value;
      && PacketOk(ok, p) && Encodable(p) && EncodePacket(p).Success?
      && |OpsBytes(EncodePacket(p).value)| <= |src|
      && DecodeFull(ok, OpsBytes(EncodePacket(p).value)) == Success(p)
  {
    hide EncodeBody, DecodePacket, PacketOk;
    if DecodeFull(ok, src).Success? {
      var (first, n, start) := FixedHeader(src).value.value;
      var body := src[start..];
      BodyDecoded(ok, first, body);
      var p := DecodePacket(ok, first, body).value;
      var again := OpsBytes(EncodeBody(p).value);
      Varint.EncodeIsShortest(src[1..]);
      Varint.LengthIsMonotone(|again|, n);
      PacketForm(p);
      EncodedComesBack(ok, p);
    }
  }

  /** Every well-formed packet whose body fits a four-byte length encodes, and decode_full(encode(p)) == p. */
  lemma PacketRoundTrip(ok: Bytes -> bool, p: Packet)
    requires PacketOk(ok, p) && BodyLength(p) < Varint.LIMIT
    ensures Encodable(p) && EncodePacket(p).Success?
    ensures DecodeFull(ok, OpsBytes(EncodePacket(p).value)) == Success(p)
  {
    hide PacketOk, EncodePacket, DecodeFull;
    OkEncodes(ok, p);
    EncodedComesBack(ok, p);
  }

  /** Well-formedness is no stronger than it has to be: of the packets that encode, exactly the well-formed come back. */
  lemma RoundTripExactly(ok: Bytes -> bool, p: Packet)
    requires Encodable(p) && EncodePacket(p).Success?
    ensures DecodeFull(ok, OpsBytes(EncodePacket(p).value)) == Success(p) <==> PacketOk(ok, p)
  {
    hide PacketOk, EncodePacket, DecodeFull;
    if PacketOk(ok, p) {
      EncodedComesBack(ok, p);
    } else if DecodeFull(ok, OpsBytes(EncodePacket(p).value)) == Success(p) {
      ReencodeRoundTrip(ok, OpsBytes(EncodePacket(p).value));
    }
  }
}
