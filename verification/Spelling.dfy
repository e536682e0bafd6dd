/**
 * What a decoder accepts: nothing but spellings of the packet it returns.
 *
 * The length of a packet or a list, and a subscription identifier, may be spelled with more bytes than needed;
 * properties may come in any order and be at their defaults; two packets have shorter forms. Nothing else varies.
 */
module Spelling {
  import opened Wrappers
  import opened Bytes
  import opened Packets
  import opened Wire
  import opened Properties
  import opened PropertyLists
  import opened Codec
  import opened RoundTrip
  import opened Layout
  import opened Explicit
  import TopicFilter
  import Varint

  // --- Numbers ---

  /** Seven bits to a byte, lowest first. */
  function NumberOf(b: Bytes): nat {
    if b == [] then 0 else b[0] as int % 128 + 128 * NumberOf(b[1..])
  }

  /** Section 1.5.5, not necessarily in the fewest bytes. */
  predicate SpellsNumber(b: Bytes, n: nat) {
    1 <= |b| <= 4 && b[|b| - 1] < 128 && (forall i :: 0 <= i < |b| - 1 ==> b[i] >= 128) && n == NumberOf(b)
  }

  lemma {:induction false} NumberIsSpelled(src: Bytes, read: nat)
    requires read < 4
    ensures match Varint.DecodeAfter(src, read)
      case Complete(n, k) => k <= |src| && k <= 4 - read && SpellsNumber(src[..k], n)
      case _ => true
    decreases 4 - read
  {
    var d := Varint.DecodeAfter(src, read);
    if d.Complete? {
      var b := src[..d.length];
      if src[0] < 128 {
        assert b[1..] == [];
      } else {
        NumberIsSpelled(src[1..], read + 1);
        var rest := src[1..][..d.length - 1];
        assert b[1..] == rest;
        assert forall i :: 0 < i < |b| ==> b[i] == rest[i - 1];
      }
    }
  }

  lemma VarintIsSpelled(src: Bytes) returns (b: Bytes)
    requires GetVarint(src).Success?
    ensures src == b + GetVarint(src).value.1 && SpellsNumber(b, GetVarint(src).value.0)
  {
    NumberIsSpelled(src, 0);
    b := src[..Varint.Decode(src).length];
  }

  // --- Fields ---

  lemma FieldsAreSpelled(src: Bytes)
    ensures GetU8(src).Success? ==> src == [GetU8(src).value.0] + GetU8(src).value.1
    ensures GetU16(src).Success? ==> src == Word(GetU16(src).value.0) + GetU16(src).value.1
    ensures GetPacketId(src).Success? ==> src == Word(GetPacketId(src).value.0) + GetPacketId(src).value.1
    ensures GetBinary(src).Success? ==> src == Str(GetBinary(src).value.0) + GetBinary(src).value.1
    ensures GetFlag(src).Success? ==> src == [FlagBit(GetFlag(src).value.0)] + GetFlag(src).value.1
  {
  }

  lemma LongIsSpelled(src: Bytes)
    ensures GetU32(src).Success? ==> src == Long(GetU32(src).value.0) + GetU32(src).value.1
  {
    if GetU32(src).Success? {
      var n := U32At(src);
      NumbersLaidOut(n);
      assert U16At(src) == n / 65536 && U16At(src[2..]) == n % 65536;
      assert U16Bytes(U16At(src)) == src[..2] && U16Bytes(U16At(src[2..])) == src[2..4];
      assert src == src[..2] + src[2..4] + src[4..];
    }
  }

  lemma TextsAreSpelled(ok: Bytes -> bool, src: Bytes)
    ensures GetText(ok, src).Success? ==> src == Str(GetText(ok, src).value.0) + GetText(ok, src).value.1
    ensures GetTopic(ok, src).Success? ==> src == Str(GetTopic(ok, src).value.0) + GetTopic(ok, src).value.1
    ensures GetFilter(ok, src).Success? ==>
      |GetFilter(ok, src).value.0.text| <= 65535 && src == Str(GetFilter(ok, src).value.0.text) + GetFilter(ok, src).value.1
  {
    hide Str;
    FieldsAreSpelled(src);
  }

  // --- Properties ---

  /** The bytes of a property; a subscription identifier may be spelled with more of them than needed. */
  predicate SpellsProperty(b: Bytes, p: Property) {
    if p.SubscriptionId? then |b| >= 1 && b[0] == 0x0B && SpellsNumber(b[1..], p.subscription) else b == PropertyBytes(p)
  }

  ghost predicate SpellsValue(b: Bytes, v: Value) {
    match v
    case FlagValue(x) => b == [FlagBit(x)]
    case U16Value(n) => b == Word(n)
    case U32Value(n) => b == Long(n)
    case VarintValue(n) => SpellsNumber(b, n)
    case TextValue(t) => b == Str(t)
    case TopicValue(t) => b == Str(t)
    case BinaryValue(t) => b == Str(t)
    case PairValue(u) => b == Str(u.name) + Str(u.value)
  }

  lemma ValueIsSpelled(ok: Bytes -> bool, t: WireType, src: Bytes) returns (b: Bytes)
    requires GetValue(ok, t, src).Success?
    ensures src == b + GetValue(ok, t, src).value.1 && SpellsValue(b, GetValue(ok, t, src).value.0)
  {
    hide GetText, GetTopic, GetBinary, GetU16, GetU32, GetFlag, GetVarint, Str, Word, Long, FlagBit, SpellsNumber;
    FieldsAreSpelled(src);
    LongIsSpelled(src);
    TextsAreSpelled(ok, src);
    match t {
      case FlagType => b := [FlagBit(GetFlag(src).value.0)];
      case U16Type => b := Word(GetU16(src).value.0);
      case U32Type => b := Long(GetU32(src).value.0);
      case VarintType => b := VarintIsSpelled(src);
      case TextType => b := Str(GetText(ok, src).value.0);
      case TopicType => b := Str(GetTopic(ok, src).value.0);
      case BinaryType => b := Str(GetBinary(src).value.0);
      case PairType =>
        var (n, s) := GetText(ok, src).value;
        TextsAreSpelled(ok, s);
        b := Str(n) + Str(GetText(ok, s).value.0);
    }
  }

  lemma PropertyIsSpelled(ok: Bytes -> bool, src: Bytes) returns (b: Bytes)
    requires DecodeOne(ok, src).Success?
    ensures src == b + DecodeOne(ok, src).value.1 && b != []
    ensures SpellsProperty(b, DecodeOne(ok, src).value.0) && OnTheWire(ok, DecodeOne(ok, src).value.0)
  {
    hide GetValue, FromWire, TypeOf, SpellsValue, SpellsProperty, OnTheWire, WellFormedValue, GetU8;
    FieldsAreSpelled(src);
    var (id, s) := GetU8(src).value;
    var t := TypeOf(id).value;
    var value := ValueIsSpelled(ok, t, s);
    var v := GetValue(ok, t, s).value.0;
    b := [id] + value;
    SpelledAs(ok, id, v, value);
    WiredProperty(ok, id, v);
  }

  lemma SpelledAs(ok: Bytes -> bool, id: byte, v: Value, b: Bytes)
    requires TypeOf(id).Some? && HasType(v, TypeOf(id).value) && FromWire(id, v).Success? && SpellsValue(b, v)
    ensures SpellsProperty([id] + b, FromWire(id, v).value)
  {
    hide FromWire, TypeOf, Str, Word, Long, FlagBit, SpellsNumber, Length;
    ReadAsWritten(id, v);
    var p := FromWire(id, v).value;
    assert ([id] + b)[1..] == b;
  }

  lemma WiredProperty(ok: Bytes -> bool, id: byte, v: Value)
    requires TypeOf(id).Some? && HasType(v, TypeOf(id).value) && WellFormedValue(ok, v)
    ensures FromWire(id, v).Success? ==> OnTheWire(ok, FromWire(id, v).value)
  {
    FromWireIsWellFormed(ok, id, v);
  }

  // --- Lists ---

  ghost predicate SpellsList(b: Bytes, ps: seq<Property>)
    decreases |ps|
  {
    if ps == [] then b == []
    else exists first: Bytes, rest: Bytes :: b == first + rest && SpellsProperty(first, ps[0]) && SpellsList(rest, ps[1..])
  }

  /** A length, and then exactly that many bytes of properties. */
  ghost predicate SpellsSized(b: Bytes, ps: seq<Property>) {
    exists n: Bytes, list: Bytes :: b == n + list && SpellsNumber(n, |list|) && SpellsList(list, ps)
  }

  lemma {:induction false} ListIsSpelled(ok: Bytes -> bool, owner: Owner, src: Bytes, bag: Bag) returns (ps: seq<Property>)
    requires DecodeInto(ok, owner, src, bag).Success?
    ensures SpellsList(src, ps) && AllOnTheWire(ok, ps)
    ensures GatherEach(owner, bag, ps) == DecodeInto(ok, owner, src, bag)
    decreases |src|
  {
    hide DecodeOne, Gather, SpellsProperty, OnTheWire;
    if src == [] {
      return [];
    }
    var (p, rest) := DecodeOne(ok, src).value;
    var b := PropertyIsSpelled(ok, src);
    var more := ListIsSpelled(ok, owner, rest, Gather(owner, bag, p).value);
    ps := [p] + more;
    assert ps[1..] == more && ps[0] == p;
    assert src == b + rest && SpellsProperty(b, ps[0]) && SpellsList(rest, ps[1..]);
  }

  /** A list that is accepted is the spelling of an acceptable list, and what is gathered is what it says. */
  lemma SizedIsSpelled(ok: Bytes -> bool, owner: Owner, src: Bytes) returns (b: Bytes, ps: seq<Property>)
    requires DecodeList(ok, owner, src).Success?
    ensures src == b + DecodeList(ok, owner, src).value.1 && b != []
    ensures SpellsSized(b, ps) && AllOnTheWire(ok, ps) && ListOk(owner, ps) && Describes(DecodeList(ok, owner, src).value.0, ps)
  {
    hide DecodeInto, SpellsNumber, SpellsList, ListOk, Describes, GetVarint, OnTheWire;
    var n := VarintIsSpelled(src);
    NotEmptyNumber(n, GetVarint(src).value.0);
    var (len, s) := GetVarint(src).value;
    var list := s[..len];
    ps := ListIsSpelled(ok, owner, list, EMPTY);
    b := n + list;
    assert src == b + s[len..];
    assert b == n + list && SpellsNumber(n, |list|) && SpellsList(list, ps);
    EmptyDescribes(owner);
    NoneForConnect(ok, ps);
    GatherFrom(owner, EMPTY, [], ps);
    assert [] + ps == ps;
  }

  lemma NotEmptyNumber(b: Bytes, n: nat)
    requires SpellsNumber(b, n)
    ensures b != []
  {
  }

  lemma NoneForConnect(ok: Bytes -> bool, ps: seq<Property>)
    requires AllOnTheWire(ok, ps)
    ensures forall q :: q in ps ==> !q.ConnectSessionExpiry?
  {
  }

  // --- Records ---

  /** What is gathered is what the record carries. */
  lemma PublishCarriesList(b: Bag, ps: seq<Property>)
    requires Describes(b, ps)
    ensures PublishCarries(PublishFromBag(b), ps)
  {
    hide UsersIn, IdsIn;
    assert Holds(b, PayloadIsUtf8(true)) <==> PayloadIsUtf8(true) in ps;
    forall n: u32
      ensures b.messageExpiry == Some(n) <==> MessageExpiry(n) in ps
    {
      assert Holds(b, MessageExpiry(n)) <==> MessageExpiry(n) in ps;
    }
    forall n: NonZeroU16
      ensures b.topicAlias == Some(n) <==> TopicAlias(n) in ps
    {
      assert Holds(b, TopicAlias(n)) <==> TopicAlias(n) in ps;
    }
    MessageTexts(b, ps);
  }

  lemma MessageTexts(b: Bag, ps: seq<Property>)
    requires Describes(b, ps)
    ensures forall t: Text :: b.responseTopic == Some(t) <==> ResponseTopic(t) in ps
    ensures forall t: Text :: b.correlationData == Some(t) <==> CorrelationData(t) in ps
    ensures forall t: Text :: b.contentType == Some(t) <==> ContentType(t) in ps
  {
    hide UsersIn, IdsIn;
    forall t: Text
      ensures b.responseTopic == Some(t) <==> ResponseTopic(t) in ps
    {
      assert Holds(b, ResponseTopic(t)) <==> ResponseTopic(t) in ps;
    }
    forall t: Text
      ensures b.correlationData == Some(t) <==> CorrelationData(t) in ps
    {
      assert Holds(b, CorrelationData(t)) <==> CorrelationData(t) in ps;
    }
    forall t: Text
      ensures b.contentType == Some(t) <==> ContentType(t) in ps
    {
      assert Holds(b, ContentType(t)) <==> ContentType(t) in ps;
    }
  }

  lemma ControlTexts(b: Bag, ps: seq<Property>)
    requires Describes(b, ps)
    ensures forall t: Text :: b.reasonString == Some(t) <==> ReasonString(t) in ps
    ensures forall t: Text :: b.serverReference == Some(t) <==> ServerReference(t) in ps
    ensures forall t: Text :: b.authMethod == Some(t) <==> AuthMethod(t) in ps
    ensures forall t: Text :: b.authData == Some(t) <==> AuthData(t) in ps
  {
    hide UsersIn, IdsIn;
    forall t: Text
      ensures b.reasonString == Some(t) <==> ReasonString(t) in ps
    {
      assert Holds(b, ReasonString(t)) <==> ReasonString(t) in ps;
    }
    forall t: Text
      ensures b.serverReference == Some(t) <==> ServerReference(t) in ps
    {
      assert Holds(b, ServerReference(t)) <==> ServerReference(t) in ps;
    }
    forall t: Text
      ensures b.authMethod == Some(t) <==> AuthMethod(t) in ps
    {
      assert Holds(b, AuthMethod(t)) <==> AuthMethod(t) in ps;
    }
    forall t: Text
      ensures b.authData == Some(t) <==> AuthData(t) in ps
    {
      assert Holds(b, AuthData(t)) <==> AuthData(t) in ps;
    }
  }

  lemma NumbersHeld(b: Bag, ps: seq<Property>)
    requires Describes(b, ps)
    ensures forall n: u32 :: b.messageExpiry == Some(n) <==> MessageExpiry(n) in ps
    ensures forall n: u32 :: b.willDelay == Some(n) <==> WillDelay(n) in ps
    ensures forall e :: b.sessionExpiry == Some(e) <==> Expiry(e) in ps
  {
    hide UsersIn, IdsIn;
    forall n: u32
      ensures b.messageExpiry == Some(n) <==> MessageExpiry(n) in ps
    {
      assert Holds(b, MessageExpiry(n)) <==> MessageExpiry(n) in ps;
    }
    forall n: u32
      ensures b.willDelay == Some(n) <==> WillDelay(n) in ps
    {
      assert Holds(b, WillDelay(n)) <==> WillDelay(n) in ps;
    }
    forall e
      ensures b.sessionExpiry == Some(e) <==> Expiry(e) in ps
    {
      assert Holds(b, Expiry(e)) <==> Expiry(e) in ps;
    }
  }

  lemma LimitsHeld(b: Bag, ps: seq<Property>)
    requires Describes(b, ps)
    ensures forall n: NonZeroU16 :: b.receiveMaximum == Some(n) <==> ReceiveMaximum(n) in ps
    ensures forall n: NonZeroU32 :: b.maximumPacketSize == Some(n) <==> MaximumPacketSize(n) in ps
    ensures forall n: u16 :: b.topicAliasMaximum == Some(n) <==> TopicAliasMaximum(n) in ps
  {
    hide UsersIn, IdsIn;
    forall n: NonZeroU16
      ensures b.receiveMaximum == Some(n) <==> ReceiveMaximum(n) in ps
    {
      assert Holds(b, ReceiveMaximum(n)) <==> ReceiveMaximum(n) in ps;
    }
    forall n: NonZeroU32
      ensures b.maximumPacketSize == Some(n) <==> MaximumPacketSize(n) in ps
    {
      assert Holds(b, MaximumPacketSize(n)) <==> MaximumPacketSize(n) in ps;
    }
    forall n: u16
      ensures b.topicAliasMaximum == Some(n) <==> TopicAliasMaximum(n) in ps
    {
      assert Holds(b, TopicAliasMaximum(n)) <==> TopicAliasMaximum(n) in ps;
    }
  }

  lemma WillCarriesList(b: Bag, w: Will, ps: seq<Property>)
    requires Describes(b, ps) && w.delay == OrElse(b.willDelay, 0)
    requires w.properties == WillProperties(OrElse(b.payloadIsUtf8, false), b.messageExpiry, b.responseTopic,
      b.correlationData, b.users, b.contentType)
    ensures WillCarries(w, ps)
  {
    hide Holds, UsersIn, IdsIn;
    FlagFields(b, ps);
    NumbersHeld(b, ps);
    MessageTexts(b, ps);
    assert b.willDelay.Some? ==> WillDelay(b.willDelay.value) in ps;
  }

  lemma LimitsCarriedList(b: Bag, p: ConnectProperties, ps: seq<Property>)
    requires Describes(b, ps)
    requires p.sessionExpiry == OrElse(b.sessionExpiry, Duration(0)) && p.receiveMaximum == OrElse(b.receiveMaximum, 65535)
    requires p.maximumPacketSize == OrElse(b.maximumPacketSize, 4294967295) && p.topicAliasMaximum == OrElse(b.topicAliasMaximum, 0)
    ensures LimitsCarried(p, ps)
  {
    hide Describes;
    NumbersHeld(b, ps);
    LimitsHeld(b, ps);
    assert b.sessionExpiry.Some? ==> Expiry(b.sessionExpiry.value) in ps;
    assert b.receiveMaximum.Some? ==> ReceiveMaximum(b.receiveMaximum.value) in ps;
    assert b.maximumPacketSize.Some? ==> MaximumPacketSize(b.maximumPacketSize.value) in ps;
    assert b.topicAliasMaximum.Some? ==> TopicAliasMaximum(b.topicAliasMaximum.value) in ps;
  }

  lemma AuthenticationCarriedList(b: Bag, ps: seq<Property>)
    requires Describes(b, ps) && AuthenticationOf(b).Success?
    ensures AuthenticationCarried(AuthenticationOf(b).value, ps)
  {
    hide Describes;
    ControlTexts(b, ps);
  }

  lemma ConnectCarriesList(b: Bag, ps: seq<Property>)
    requires Describes(b, ps) && ConnectFromBag(b).Success?
    ensures ConnectCarries(ConnectFromBag(b).value, ps)
  {
    hide Describes, LimitsCarried, AuthenticationCarried, AuthenticationOf;
    DescribedParts(b, ps);
    FlagFields(b, ps);
    LimitsCarriedList(b, ConnectFromBag(b).value, ps);
    AuthenticationCarriedList(b, ps);
  }

  lemma ControlCarriesList(b: Bag, ps: seq<Property>)
    requires Describes(b, ps)
    ensures DisconnectCarries(DisconnectProperties(b.sessionExpiry, b.reasonString, b.users, b.serverReference), ps)
    ensures PubAckCarries(PubAckProperties(b.reasonString, b.users), ps)
  {
    hide Holds, UsersIn, IdsIn;
    NumbersHeld(b, ps);
    ControlTexts(b, ps);
  }

  // --- Packets ---

  function WillFrom(w: Option<Will>, list: Bytes): Bytes {
    match w
    case None => []
    case Some(will) => list + (Str(will.topic) + (if |will.payload| <= 65535 then Str(will.payload) else []))
  }

  /** The body of a packet around the bytes of its list of properties, and of that of its will. */
  function BodyFrom(p: Packet, list: Bytes, willList: Bytes): Bytes
    requires Encodable(p)
  {
    match p
    case ConnectPacket(c) =>
      ConnectStart(c)
      + (list
      + (Str(OrElse(c.clientId, []))
      + (WillFrom(c.will, willList) + (MaybeStr(c.username) + MaybeStr(c.password)))))
    case PublishPacket(m) =>
      Str(m.topic)
      + ((match m.delivery case Once => [] case Acked(id, _) => Word(id) case Assured(id, _) => Word(id)) + (list + m.payload))
    case PubAckPacket(a) => Word(a.id) + ([a.reason] + list)
    case SubscribePacket(s) => Word(s.id) + (list + SubscriptionBytes(s.to))
    case DisconnectPacket(d) => [d.reason] + list
    case PingReqPacket => []
    case PingRespPacket => []
  }

  /** The lists carry the properties of the packet. */
  ghost predicate ListsCarry(p: Packet, ps: seq<Property>, qs: seq<Property>) {
    match p
    case ConnectPacket(c) =>
      && ListOk(InConnect, ps) && ConnectCarries(c.properties, ps)
      && (c.will.Some? ==> ListOk(InWill, qs) && WillCarries(c.will.value, qs))
    case PublishPacket(m) => ListOk(InPublish, ps) && PublishCarries(m.properties, ps)
    case PubAckPacket(a) => ListOk(InPubAck, ps) && PubAckCarries(a.properties, ps)
    case SubscribePacket(s) =>
      ListOk(InSubscribe, ps) && SubscribeCarries(s, ps)
    case DisconnectPacket(d) => ListOk(InDisconnect, ps) && DisconnectCarries(d.properties, ps)
    case PingReqPacket => true
    case PingRespPacket => true
  }

  /** The shorter forms of PUBACK and DISCONNECT: without properties, and then without a reason of zero. */
  ghost predicate ShortForm(p: Packet, body: Bytes) {
    match p
    case PubAckPacket(a) =>
      && a.properties == PubAckProperties(None, [])
      && (body == Word(a.id) + [a.reason] || (body == Word(a.id) && a.reason == 0x00))
    case DisconnectPacket(d) =>
      && d.properties == DisconnectProperties(None, None, [], None)
      && (body == [d.reason] || (body == [] && d.reason == 0x00))
    case _ => p.PingReqPacket? || p.PingRespPacket?
  }

  /** The body is a spelling of the packet with these lists of properties. */
  ghost predicate SpellsBody(p: Packet, body: Bytes, list: Bytes, ps: seq<Property>, willList: Bytes, qs: seq<Property>)
    requires Encodable(p)
  {
    && body == BodyFrom(p, list, willList) && SpellsSized(list, ps) && ListsCarry(p, ps, qs)
    && (p.ConnectPacket? && p.connect.will.Some? ==> SpellsSized(willList, qs))
  }

  lemma PublishIsSpelled(ok: Bytes -> bool, flags: byte, src: Bytes) returns (list: Bytes, ps: seq<Property>)
    requires DecodePublish(ok, flags, src).Success?
    ensures var m := DecodePublish(ok, flags, src).value.0;
      SpellsBody(PublishPacket(m), src, list, ps, [], [])
  {
    hide DecodeList, GetTopic, GetPacketId, Str, Word, SpellsSized, ListOk, Describes, PublishCarries, PublishFromBag;
    TextsAreSpelled(ok, src);
    var (topic, s) := GetTopic(ok, src).value;
    FieldsAreSpelled(s);
    var (delivery, t) := GetDelivery(flags, s).value;
    list, ps := SizedIsSpelled(ok, InPublish, t);
    PublishCarriesList(DecodeList(ok, InPublish, t).value.0, ps);
    assert [] + t == t;
  }

  lemma PubAckIsSpelled(ok: Bytes -> bool, src: Bytes) returns (list: Bytes, ps: seq<Property>)
    requires DecodePubAck(ok, src).Success?
    ensures var a := DecodePubAck(ok, src).value.0;
      DecodePubAck(ok, src).value.1 == [] ==> ShortForm(PubAckPacket(a), src) || SpellsBody(PubAckPacket(a), src, list, ps, [], [])
  {
    hide DecodeList, GetPacketId, GetU8, Word, SpellsSized, ListOk, Describes, PubAckCarries, IsPubAckReason;
    FieldsAreSpelled(src);
    var (id, s) := GetPacketId(src).value;
    list, ps := [], [];
    assert Word(id) + [] == Word(id);
    if s != [] {
      FieldsAreSpelled(s);
      var (reason, t) := GetU8(s).value;
      assert [reason] + [] == [reason];
      if t != [] {
        list, ps := SizedIsSpelled(ok, InPubAck, t);
        ControlCarriesList(DecodeList(ok, InPubAck, t).value.0, ps);
        assert list + [] == list;
      }
    }
  }

  lemma DisconnectIsSpelled(ok: Bytes -> bool, src: Bytes) returns (list: Bytes, ps: seq<Property>)
    requires DecodeDisconnect(ok, src).Success?
    ensures var d := DecodeDisconnect(ok, src).value.0;
      DecodeDisconnect(ok, src).value.1 == [] ==> ShortForm(DisconnectPacket(d), src) || SpellsBody(DisconnectPacket(d), src, list, ps, [], [])
  {
    hide DecodeList, GetU8, SpellsSized, ListOk, Describes, DisconnectCarries, IsDisconnectReason;
    list, ps := [], [];
    if src != [] {
      FieldsAreSpelled(src);
      var (reason, t) := GetU8(src).value;
      assert [reason] + [] == [reason];
      if t != [] {
        list, ps := SizedIsSpelled(ok, InDisconnect, t);
        ControlCarriesList(DecodeList(ok, InDisconnect, t).value.0, ps);
        assert list + [] == list;
      }
    }
  }

  lemma OptionBits(n: nat)
    requires n < 64
    ensures n == n % 4 + 4 * (n / 4 % 2) + 8 * (n / 8 % 2) + 16 * (n / 16 % 4)
  {
  }

  lemma OptionsAreSpelled(b: byte)
    ensures OptionsFrom(b).Success? ==> b == OptionsByte(OptionsFrom(b).value)
  {
    if OptionsFrom(b).Success? {
      OptionBits(b);
      BitValue(b, 4);
      BitValue(b, 8);
    }
  }

  lemma SubscriptionIsSpelled(ok: Bytes -> bool, src: Bytes)
    requires GetSubscribeTo(ok, src).Success?
    ensures var (to, rest) := GetSubscribeTo(ok, src).value;
      |to.filter.text| <= 65535 && src == Str(to.filter.text) + [OptionsByte(to.options)] + rest
  {
    hide GetFilter, GetU8, OptionsFrom, OptionsByte, Str;
    TextsAreSpelled(ok, src);
    var (filter, s) := GetFilter(ok, src).value;
    FieldsAreSpelled(s);
    OptionsAreSpelled(GetU8(s).value.0);
  }

  lemma {:induction false} SubscriptionsAreSpelled(ok: Bytes -> bool, src: Bytes)
    requires GetTos(ok, src).Success?
    ensures FiltersFit(GetTos(ok, src).value) && src == SubscriptionBytes(GetTos(ok, src).value)
    decreases |src|
  {
    hide GetSubscribeTo, OptionsByte, Str, Bits;
    if src != [] {
      var (to, rest) := GetSubscribeTo(ok, src).value;
      SubscriptionIsSpelled(ok, src);
      OptionsLaidOut(to.options);
      SubscriptionsAreSpelled(ok, rest);
      var all := GetTos(ok, src).value;
      assert all[1..] == GetTos(ok, rest).value && all[0] == to;
    }
  }

  lemma SubscribeIsSpelled(ok: Bytes -> bool, src: Bytes) returns (list: Bytes, ps: seq<Property>)
    requires DecodeSubscribe(ok, src).Success?
    ensures var s := DecodeSubscribe(ok, src).value.0;
      FiltersFit(s.to) && SpellsBody(SubscribePacket(s), src, list, ps, [], [])
  {
    hide DecodeList, GetPacketId, Word, SpellsSized, ListOk, Describes, GetTos, SubscriptionBytes;
    FieldsAreSpelled(src);
    var (id, s) := GetPacketId(src).value;
    list, ps := SizedIsSpelled(ok, InSubscribe, s);
    var (bag, t) := DecodeList(ok, InSubscribe, s).value;
    SubscriptionsAreSpelled(ok, t);
    DescribedParts(bag, ps);
    AtMostOneId(bag, ps);
  }

  /** In a SUBSCRIBE the subscription identifier is not repeated. */
  lemma AtMostOneId(b: Bag, ps: seq<Property>)
    requires ListOk(InSubscribe, ps)
    ensures |IdsIn(ps)| <= 1
  {
    OneIdAtMost(ps);
  }

  lemma {:induction false} OneIdAtMost(ps: seq<Property>)
    requires ListOk(InSubscribe, ps)
    ensures |IdsIn(ps)| <= 1
  {
    hide ListOk, IdOf;
    if ps != [] {
      var init, last := ps[..|ps| - 1], ps[|ps| - 1];
      assert ps == init + [last];
      ListOkSnoc(InSubscribe, init, last);
      OneIdAtMost(init);
      if last.SubscriptionId? {
        IdsPresent(init);
        forall q | q in init && q.SubscriptionId?
          ensures IdOf(q) == IdOf(last) == 0x0B
        {
          OccupiedIsById(InSubscribe, EMPTY, q);
          OccupiedIsById(InSubscribe, EMPTY, last);
        }
        OccupiedIsById(InSubscribe, EMPTY, last);
      }
    }
  }

  // --- CONNECT ---

  lemma Halves(n: nat)
    requires n < 256
    ensures n == 2 * (n / 2) + n % 2 && n / 2 == 2 * (n / 4) + n / 2 % 2
    ensures n / 4 == 2 * (n / 8) + n / 4 % 2 && n / 8 == 2 * (n / 16) + n / 8 % 2
  {
  }

  lemma HighHalves(n: nat)
    requires n < 256
    ensures n / 16 == 2 * (n / 32) + n / 16 % 2 && n / 32 == 2 * (n / 64) + n / 32 % 2
    ensures n / 64 == 2 * (n / 128) + n / 64 % 2 && n / 128 == n / 128 % 2
  {
  }

  /** The value of a bit. */
  lemma BitValue(b: byte, mask: nat)
    requires mask > 0
    ensures (b as int) / mask % 2 == if Bit(b, mask) then 1 else 0
  {
  }

  lemma SumOfBits(n: nat, v7: nat, v6: nat, v5: nat, v4: nat, v3: nat, v2: nat, v1: nat, v0: nat)
    requires n < 256
    requires n / 128 % 2 == v7 && n / 64 % 2 == v6 && n / 32 % 2 == v5 && n / 16 % 2 == v4
    requires n / 8 % 2 == v3 && n / 4 % 2 == v2 && n / 2 % 2 == v1 && n % 2 == v0
    ensures n == 128 * v7 + 64 * v6 + 32 * v5 + 16 * v4 + 8 * v3 + 4 * v2 + 2 * v1 + v0
  {
    var h1, h2, h3, h4 := n / 2, n / 4, n / 8, n / 16;
    Halves(n);
    HighHalves(n);
    assert n == 16 * h4 + 8 * v3 + 4 * v2 + 2 * v1 + v0;
  }

  lemma BitsOf(b: byte)
    ensures b == Bits(Bit(b, 128), Bit(b, 64), Bit(b, 32), Bit(b, 16), Bit(b, 8), Bit(b, 4), Bit(b, 2), Bit(b, 1))
  {
    hide Bit;
    BitValue(b, 128);
    BitValue(b, 64);
    BitValue(b, 32);
    BitValue(b, 16);
    BitValue(b, 8);
    BitValue(b, 4);
    BitValue(b, 2);
    BitValue(b, 1);
    SumOfBits(b, if Bit(b, 128) then 1 else 0, if Bit(b, 64) then 1 else 0, if Bit(b, 32) then 1 else 0, if Bit(b, 16) then 1 else 0,
      if Bit(b, 8) then 1 else 0, if Bit(b, 4) then 1 else 0, if Bit(b, 2) then 1 else 0, if Bit(b, 1) then 1 else 0);
  }

  lemma ConnectHeaderIsSpelled(ok: Bytes -> bool, src: Bytes)
    requires GetConnectHeader(ok, src).Success?
    ensures var ((flags, keepAlive), rest) := GetConnectHeader(ok, src).value;
      && !Bit(flags, 1)
      && src == ([0x00, 0x04, 0x4D, 0x51, 0x54, 0x54, 0x05] + [flags] + Word(keepAlive)) + rest
  {
    hide GetText, GetU8, GetU16, Bit, Word, Str;
    TextsAreSpelled(ok, src);
    var (name, s) := GetText(ok, src).value;
    NameIsSpelled();
    FieldsAreSpelled(s);
    var (version, t) := GetU8(s).value;
    FieldsAreSpelled(t);
    var (flags, u) := GetU8(t).value;
    FieldsAreSpelled(u);
    var (keepAlive, rest) := GetU16(u).value;
    HeaderParts([0x00, 0x04, 0x4D, 0x51, 0x54, 0x54], 0x05, flags, Word(keepAlive), rest);
    assert [0x00, 0x04, 0x4D, 0x51, 0x54, 0x54] + [0x05] == [0x00, 0x04, 0x4D, 0x51, 0x54, 0x54, 0x05];
  }

  lemma HeaderParts(name: Bytes, version: byte, flags: byte, word: Bytes, rest: Bytes)
    ensures name + ([version] + ([flags] + (word + rest))) == (name + [version] + [flags] + word) + rest
  {
  }

  lemma NameIsSpelled()
    ensures Str(PROTOCOL_NAME) == [0x00, 0x04, 0x4D, 0x51, 0x54, 0x54] && PROTOCOL_VERSION == 0x05
  {
  }

  lemma OptionalsAreSpelled(ok: Bytes -> bool, present: bool, src: Bytes)
    ensures GetOptionalText(ok, present, src).Success? ==>
      var (t, rest) := GetOptionalText(ok, present, src).value; t.Some? == present && src == MaybeStr(t) + rest
    ensures GetOptionalBinary(present, src).Success? ==>
      var (t, rest) := GetOptionalBinary(present, src).value; t.Some? == present && src == MaybeStr(t) + rest
  {
    hide GetText, GetBinary, Str;
    TextsAreSpelled(ok, src);
    FieldsAreSpelled(src);
    assert [] + src == src;
  }

  lemma WillIsSpelled(ok: Bytes -> bool, flags: byte, src: Bytes) returns (list: Bytes, qs: seq<Property>)
    requires GetWill(ok, flags, src).Success?
    ensures var (w, rest) := GetWill(ok, flags, src).value;
      && src == WillFrom(w, list) + rest && w.Some? == Bit(flags, 4)
      && (if w.Some? then
            && SpellsSized(list, qs) && ListOk(InWill, qs) && WillCarries(w.value, qs)
            && Bit(flags, 32) == w.value.retain && QoSFrom(flags / 8 % 4) == Success(w.value.qos)
          else flags / 8 % 4 == 0 && !Bit(flags, 32))
  {
    hide DecodeList, GetTopic, GetBinary, Str, SpellsSized, ListOk, Describes, WillCarries, Bit, QoSFrom;
    list, qs := [], [];
    if Bit(flags, 4) {
      list, qs := SizedIsSpelled(ok, InWill, src);
      var (bag, s) := DecodeList(ok, InWill, src).value;
      TextsAreSpelled(ok, s);
      var (topic, t) := GetTopic(ok, s).value;
      FieldsAreSpelled(t);
      var (payload, rest) := GetBinary(t).value;
      WillParts(list, Str(topic), Str(payload), rest);
      WillCarriesList(bag, GetWill(ok, flags, src).value.0.value, qs);
    } else {
      assert [] + src == src;
    }
  }

  lemma WillParts(list: Bytes, topic: Bytes, payload: Bytes, rest: Bytes)
    ensures list + (topic + (payload + rest)) == (list + (topic + payload)) + rest
  {
  }

  lemma FlagsAreSpelled(flags: byte, c: Connect)
    requires !Bit(flags, 1) && Bit(flags, 2) == c.cleanStart && Bit(flags, 4) == c.will.Some?
    requires Bit(flags, 64) == c.password.Some? && Bit(flags, 128) == c.username.Some?
    requires if c.will.Some? then Bit(flags, 32) == c.will.value.retain && QoSFrom(flags / 8 % 4) == Success(c.will.value.qos)
      else flags / 8 % 4 == 0 && !Bit(flags, 32)
    ensures var w := c.will;
      flags == Bits(c.username.Some?, c.password.Some?, w.Some? && w.value.retain,
        w.Some? && w.value.qos.ExactlyOnce?, w.Some? && w.value.qos.AtLeastOnce?, w.Some?, c.cleanStart, false)
  {
    BitsOf(flags);
    assert flags / 8 % 4 == flags / 8 % 2 + 2 * (flags / 16 % 2);
  }

  lemma ConnectIsSpelled(ok: Bytes -> bool, src: Bytes) returns (list: Bytes, ps: seq<Property>, willList: Bytes, qs: seq<Property>)
    requires DecodeConnect(ok, src).Success?
    ensures var c := DecodeConnect(ok, src).value.0;
      DecodeConnect(ok, src).value.1 == [] ==> SpellsBody(ConnectPacket(c), src, list, ps, willList, qs)
  {
    hide DecodeList, GetConnectHeader, GetText, GetWill, GetOptionalText, GetOptionalBinary, ConnectFromBag;
    hide Str, MaybeStr, WillFrom, Word, Bit, Bits, QoSFrom, SpellsSized, ListOk, Describes, ConnectCarries, WillCarries;
    ConnectHeaderIsSpelled(ok, src);
    var ((flags, keepAlive), s) := GetConnectHeader(ok, src).value;
    list, ps := SizedIsSpelled(ok, InConnect, s);
    var (bag, t) := DecodeList(ok, InConnect, s).value;
    ConnectCarriesList(bag, ps);
    TextsAreSpelled(ok, t);
    var (clientId, u) := GetText(ok, t).value;
    willList, qs := WillIsSpelled(ok, flags, u);
    var (will, v) := GetWill(ok, flags, u).value;
    OptionalsAreSpelled(ok, Bit(flags, 128), v);
    var (username, w) := GetOptionalText(ok, Bit(flags, 128), v).value;
    OptionalsAreSpelled(ok, Bit(flags, 64), w);
    var (password, rest) := GetOptionalBinary(Bit(flags, 64), w).value;
    var c := DecodeConnect(ok, src).value.0;
    FlagsAreSpelled(flags, c);
    assert MaybeStr(password) + [] == MaybeStr(password);
    assert clientId == OrElse(c.clientId, []);
  }

  // --- Whole packets ---

  /** Which decoder a packet came from, and that it left nothing over. */
  lemma Dispatched(ok: Bytes -> bool, first: byte, body: Bytes)
    requires DecodePacket(ok, first, body).Success?
    ensures match DecodePacket(ok, first, body).value
      case ConnectPacket(c) => DecodeConnect(ok, body) == Success((c, []))
      case PublishPacket(m) => DecodePublish(ok, first % 16, body) == Success((m, []))
      case PubAckPacket(a) => DecodePubAck(ok, body) == Success((a, []))
      case SubscribePacket(s) => DecodeSubscribe(ok, body) == Success((s, []))
      case DisconnectPacket(d) => DecodeDisconnect(ok, body) == Success((d, []))
      case PingReqPacket => body == []
      case PingRespPacket => body == []
  {
    hide DecodeConnect, DecodePublish, DecodePubAck, DecodeSubscribe, DecodeDisconnect, Finish;
    var kind, flags := first / 16, first % 16;
    if kind == 1 {
      Finished(DecodeConnect(ok, body), c => ConnectPacket(c));
    } else if kind == 3 {
      Finished(DecodePublish(ok, flags, body), p => PublishPacket(p));
    } else if kind == 4 {
      Finished(DecodePubAck(ok, body), a => PubAckPacket(a));
    } else if kind == 8 {
      Finished(DecodeSubscribe(ok, body), s => SubscribePacket(s));
    } else if kind == 14 {
      Finished(DecodeDisconnect(ok, body), d => DisconnectPacket(d));
    }
  }

  lemma Finished<T>(r: Body<T>, wrap: T -> Packet)
    ensures Finish(r, wrap).Success? ==> r.Success? && r == Success((r.value.0, [])) && Finish(r, wrap) == Success(wrap(r.value.0))
  {
  }

  lemma BodyIsSpelled(ok: Bytes -> bool, first: byte, body: Bytes)
    returns (list: Bytes, ps: seq<Property>, willList: Bytes, qs: seq<Property>)
    requires DecodePacket(ok, first, body).Success?
    ensures var p := DecodePacket(ok, first, body).value;
      && Encodable(p) && First(p) == first && (p.PingReqPacket? || p.PingRespPacket? ==> body == [])
      && (ShortForm(p, body) || SpellsBody(p, body, list, ps, willList, qs))
  {
    hide DecodeConnect, DecodePublish, DecodePubAck, DecodeSubscribe, DecodeDisconnect, DecodePacket;
    hide PacketOk, FirstByte, First, ShortForm, SpellsBody;
    BodyDecoded(ok, first, body);
    Dispatched(ok, first, body);
    var p := DecodePacket(ok, first, body).value;
    FirstLaidOut(p);
    list, ps, willList, qs := [], [], [], [];
    match p {
      case ConnectPacket(c) => list, ps, willList, qs := ConnectIsSpelled(ok, body);
      case PublishPacket(m) => list, ps := PublishIsSpelled(ok, first % 16, body);
      case PubAckPacket(a) => list, ps := PubAckIsSpelled(ok, body);
      case SubscribePacket(s) => list, ps := SubscribeIsSpelled(ok, body);
      case DisconnectPacket(d) => list, ps := DisconnectIsSpelled(ok, body);
      case PingReqPacket => PingIsShort(p);
      case PingRespPacket => PingIsShort(p);
    }
  }

  lemma PingIsShort(p: Packet)
    requires p.PingReqPacket? || p.PingRespPacket?
    ensures ShortForm(p, [])
  {
  }

  /**
   * Whatever is decoded is the first byte of the packet it is decoded to, the length of the body, and a spelling of
   * that packet: the literal bytes of its fields around properties that carry exactly its values.
   */
  lemma DecodedIsSpelled(ok: Bytes -> bool, src: Bytes)
    returns (length: Bytes, body: Bytes, list: Bytes, ps: seq<Property>, willList: Bytes, qs: seq<Property>)
    requires DecodeFull(ok, src).Success?
    ensures var p := DecodeFull(ok, src).value;
      && Encodable(p)
      && src == [First(p)] + (length + body) && SpellsNumber(length, |body|)
      && (p.PingReqPacket? || p.PingRespPacket? ==> body == [])
      && (ShortForm(p, body) || SpellsBody(p, body, list, ps, willList, qs))
  {
    hide DecodePacket, ShortForm, SpellsBody, First, Encodable;
    var (first, n, start) := FixedHeader(src).value.value;
    NumberIsSpelled(src[1..], 0);
    length := src[1..][..start - 1];
    body := src[start..];
    assert src == [first] + (length + body);
    list, ps, willList, qs := BodyIsSpelled(ok, first, body);
  }
}
