/** Each property record survives being spread into a list and gathered again. */
module RoundTripLists {
  import opened Wrappers
  import opened Bytes
  import opened Packets
  import opened Properties
  import opened PropertyLists
  import opened Codec
  import Varint

  // --- One element of a list, and then the rest ---

  function Unless<T(==)>(v: T, default: T): Option<T> {
    if v == default then None else Some(v)
  }

  lemma ThenOne(ok: Bytes -> bool, owner: Owner, bag: Bag, first: seq<Property>, rest: seq<Property>)
    requires |first| <= 1 && AllWellFormed(ok, rest)
    requires first != [] ==> WellFormed(ok, first[0])
    requires first != [] && !IsDefault(first[0]) ==> Gather(owner, bag, OnWire(first[0])).Success?
    ensures AllWellFormed(ok, first + rest)
    ensures TotalSize(first + rest) == (if first == [] then 0 else Size(first[0])) + TotalSize(rest)
    ensures GatherAll(owner, bag, first + rest) ==
      GatherAll(owner, if first != [] && !IsDefault(first[0]) then Store(bag, OnWire(first[0])) else bag, rest)
  {
    GatherFirst(owner, bag, first, rest);
    SizeFirst(first, rest);
  }

  lemma ThenExpiry(ok: Bytes -> bool, owner: Owner, bag: Bag, o: Option<SessionExpiry>, rest: seq<Property>)
    requires owner.InDisconnect? && bag.sessionExpiry.None? && AllWellFormed(ok, rest) && OptExpiry(o)
    ensures AllWellFormed(ok, MaybeExpiry(o) + rest)
    ensures TotalSize(MaybeExpiry(o) + rest) == FixedWeight(o, 5) + TotalSize(rest)
    ensures GatherAll(owner, bag, MaybeExpiry(o) + rest) == GatherAll(owner, bag.(sessionExpiry := o), rest)
  {
    ThenOne(ok, owner, bag, MaybeExpiry(o), rest);
  }

  lemma ThenReasonString(ok: Bytes -> bool, owner: Owner, bag: Bag, o: Option<Text>, rest: seq<Property>)
    requires (owner.InDisconnect? || owner.InPubAck?) && bag.reasonString.None? && AllWellFormed(ok, rest) && OptText(ok, o)
    ensures AllWellFormed(ok, MaybeReasonString(o) + rest)
    ensures TotalSize(MaybeReasonString(o) + rest) == TextWeight(o) + TotalSize(rest)
    ensures GatherAll(owner, bag, MaybeReasonString(o) + rest) == GatherAll(owner, bag.(reasonString := o), rest)
  {
    ThenOne(ok, owner, bag, MaybeReasonString(o), rest);
  }

  lemma ThenServerReference(ok: Bytes -> bool, owner: Owner, bag: Bag, o: Option<Text>, rest: seq<Property>)
    requires owner.InDisconnect? && bag.serverReference.None? && AllWellFormed(ok, rest) && OptText(ok, o)
    ensures AllWellFormed(ok, MaybeServerReference(o) + rest)
    ensures TotalSize(MaybeServerReference(o) + rest) == TextWeight(o) + TotalSize(rest)
    ensures GatherAll(owner, bag, MaybeServerReference(o) + rest) == GatherAll(owner, bag.(serverReference := o), rest)
  {
    ThenOne(ok, owner, bag, MaybeServerReference(o), rest);
  }

  lemma ThenMessageExpiry(ok: Bytes -> bool, owner: Owner, bag: Bag, o: Option<u32>, rest: seq<Property>)
    requires (owner.InPublish? || owner.InWill?) && bag.messageExpiry.None? && AllWellFormed(ok, rest)
    ensures AllWellFormed(ok, MaybeMessageExpiry(o) + rest)
    ensures TotalSize(MaybeMessageExpiry(o) + rest) == FixedWeight(o, 5) + TotalSize(rest)
    ensures GatherAll(owner, bag, MaybeMessageExpiry(o) + rest) == GatherAll(owner, bag.(messageExpiry := o), rest)
  {
    ThenOne(ok, owner, bag, MaybeMessageExpiry(o), rest);
  }

  lemma ThenTopicAlias(ok: Bytes -> bool, owner: Owner, bag: Bag, o: Option<NonZeroU16>, rest: seq<Property>)
    requires owner.InPublish? && bag.topicAlias.None? && AllWellFormed(ok, rest)
    ensures AllWellFormed(ok, MaybeTopicAlias(o) + rest)
    ensures TotalSize(MaybeTopicAlias(o) + rest) == FixedWeight(o, 3) + TotalSize(rest)
    ensures GatherAll(owner, bag, MaybeTopicAlias(o) + rest) == GatherAll(owner, bag.(topicAlias := o), rest)
  {
    ThenOne(ok, owner, bag, MaybeTopicAlias(o), rest);
  }

  lemma ThenResponseTopic(ok: Bytes -> bool, owner: Owner, bag: Bag, o: Option<Text>, rest: seq<Property>)
    requires (owner.InPublish? || owner.InWill?) && bag.responseTopic.None? && AllWellFormed(ok, rest) && OptTopic(ok, o)
    ensures AllWellFormed(ok, MaybeResponseTopic(o) + rest)
    ensures TotalSize(MaybeResponseTopic(o) + rest) == TextWeight(o) + TotalSize(rest)
    ensures GatherAll(owner, bag, MaybeResponseTopic(o) + rest) == GatherAll(owner, bag.(responseTopic := o), rest)
  {
    ThenOne(ok, owner, bag, MaybeResponseTopic(o), rest);
  }

  lemma ThenCorrelationData(ok: Bytes -> bool, owner: Owner, bag: Bag, o: Option<Text>, rest: seq<Property>)
    requires (owner.InPublish? || owner.InWill?) && bag.correlationData.None? && AllWellFormed(ok, rest)
    ensures AllWellFormed(ok, MaybeCorrelationData(o) + rest)
    ensures TotalSize(MaybeCorrelationData(o) + rest) == TextWeight(o) + TotalSize(rest)
    ensures GatherAll(owner, bag, MaybeCorrelationData(o) + rest) == GatherAll(owner, bag.(correlationData := o), rest)
  {
    ThenOne(ok, owner, bag, MaybeCorrelationData(o), rest);
  }

  lemma ThenContentType(ok: Bytes -> bool, owner: Owner, bag: Bag, o: Option<Text>, rest: seq<Property>)
    requires (owner.InPublish? || owner.InWill?) && bag.contentType.None? && AllWellFormed(ok, rest) && OptText(ok, o)
    ensures AllWellFormed(ok, MaybeContentType(o) + rest)
    ensures TotalSize(MaybeContentType(o) + rest) == TextWeight(o) + TotalSize(rest)
    ensures GatherAll(owner, bag, MaybeContentType(o) + rest) == GatherAll(owner, bag.(contentType := o), rest)
  {
    ThenOne(ok, owner, bag, MaybeContentType(o), rest);
  }

  lemma ThenAuthMethod(ok: Bytes -> bool, owner: Owner, bag: Bag, o: Option<Text>, rest: seq<Property>)
    requires owner.InConnect? && bag.authMethod.None? && AllWellFormed(ok, rest) && OptText(ok, o)
    ensures AllWellFormed(ok, MaybeAuthMethod(o) + rest)
    ensures TotalSize(MaybeAuthMethod(o) + rest) == TextWeight(o) + TotalSize(rest)
    ensures GatherAll(owner, bag, MaybeAuthMethod(o) + rest) == GatherAll(owner, bag.(authMethod := o), rest)
  {
    ThenOne(ok, owner, bag, MaybeAuthMethod(o), rest);
  }

  lemma ThenAuthData(ok: Bytes -> bool, owner: Owner, bag: Bag, o: Option<Text>, rest: seq<Property>)
    requires owner.InConnect? && bag.authData.None? && AllWellFormed(ok, rest)
    ensures AllWellFormed(ok, MaybeAuthData(o) + rest)
    ensures TotalSize(MaybeAuthData(o) + rest) == TextWeight(o) + TotalSize(rest)
    ensures GatherAll(owner, bag, MaybeAuthData(o) + rest) == GatherAll(owner, bag.(authData := o), rest)
  {
    ThenOne(ok, owner, bag, MaybeAuthData(o), rest);
  }

  lemma ThenPayloadIsUtf8(ok: Bytes -> bool, owner: Owner, bag: Bag, v: bool, rest: seq<Property>)
    requires (owner.InPublish? || owner.InWill?) && bag.payloadIsUtf8.None? && AllWellFormed(ok, rest)
    ensures AllWellFormed(ok, [PayloadIsUtf8(v)] + rest)
    ensures TotalSize([PayloadIsUtf8(v)] + rest) == DefaultedWeight(Some(v), false, 2) + TotalSize(rest)
    ensures GatherAll(owner, bag, [PayloadIsUtf8(v)] + rest) == GatherAll(owner, bag.(payloadIsUtf8 := Unless(v, false)), rest)
  {
  }

  lemma ThenWillDelay(ok: Bytes -> bool, owner: Owner, bag: Bag, v: u32, rest: seq<Property>)
    requires owner.InWill? && bag.willDelay.None? && AllWellFormed(ok, rest)
    ensures AllWellFormed(ok, [WillDelay(v)] + rest)
    ensures TotalSize([WillDelay(v)] + rest) == DefaultedWeight(Some(v), 0, 5) + TotalSize(rest)
    ensures GatherAll(owner, bag, [WillDelay(v)] + rest) == GatherAll(owner, bag.(willDelay := Unless(v, 0)), rest)
  {
  }

  lemma ThenConnectSessionExpiry(ok: Bytes -> bool, owner: Owner, bag: Bag, v: SessionExpiry, rest: seq<Property>)
    requires owner.InConnect? && bag.sessionExpiry.None? && AllWellFormed(ok, rest) && WellFormedExpiry(v)
    ensures AllWellFormed(ok, [ConnectSessionExpiry(v)] + rest)
    ensures TotalSize([ConnectSessionExpiry(v)] + rest) == DefaultedWeight(Some(v), Duration(0), 5) + TotalSize(rest)
    ensures GatherAll(owner, bag, [ConnectSessionExpiry(v)] + rest) == GatherAll(owner, bag.(sessionExpiry := Unless(v, Duration(0))), rest)
  {
    ThenOne(ok, owner, bag, [ConnectSessionExpiry(v)], rest);
  }

  lemma ThenReceiveMaximum(ok: Bytes -> bool, owner: Owner, bag: Bag, v: NonZeroU16, rest: seq<Property>)
    requires owner.InConnect? && bag.receiveMaximum.None? && AllWellFormed(ok, rest)
    ensures AllWellFormed(ok, [ReceiveMaximum(v)] + rest)
    ensures TotalSize([ReceiveMaximum(v)] + rest) == DefaultedWeight(Some(v), 0xFFFF, 3) + TotalSize(rest)
    ensures GatherAll(owner, bag, [ReceiveMaximum(v)] + rest) == GatherAll(owner, bag.(receiveMaximum := Unless(v, 0xFFFF)), rest)
  {
  }

  lemma ThenMaximumPacketSize(ok: Bytes -> bool, owner: Owner, bag: Bag, v: NonZeroU32, rest: seq<Property>)
    requires owner.InConnect? && bag.maximumPacketSize.None? && AllWellFormed(ok, rest)
    ensures AllWellFormed(ok, [MaximumPacketSize(v)] + rest)
    ensures TotalSize([MaximumPacketSize(v)] + rest) == DefaultedWeight(Some(v), 0xFFFF_FFFF, 5) + TotalSize(rest)
    ensures GatherAll(owner, bag, [MaximumPacketSize(v)] + rest) == GatherAll(owner, bag.(maximumPacketSize := Unless(v, 0xFFFF_FFFF)), rest)
  {
  }

  lemma ThenTopicAliasMaximum(ok: Bytes -> bool, owner: Owner, bag: Bag, v: u16, rest: seq<Property>)
    requires owner.InConnect? && bag.topicAliasMaximum.None? && AllWellFormed(ok, rest)
    ensures AllWellFormed(ok, [TopicAliasMaximum(v)] + rest)
    ensures TotalSize([TopicAliasMaximum(v)] + rest) == DefaultedWeight(Some(v), 0, 3) + TotalSize(rest)
    ensures GatherAll(owner, bag, [TopicAliasMaximum(v)] + rest) == GatherAll(owner, bag.(topicAliasMaximum := Unless(v, 0)), rest)
  {
  }

  lemma ThenRequestResponse(ok: Bytes -> bool, owner: Owner, bag: Bag, v: bool, rest: seq<Property>)
    requires owner.InConnect? && bag.requestResponse.None? && AllWellFormed(ok, rest)
    ensures AllWellFormed(ok, [RequestResponse(v)] + rest)
    ensures TotalSize([RequestResponse(v)] + rest) == DefaultedWeight(Some(v), false, 2) + TotalSize(rest)
    ensures GatherAll(owner, bag, [RequestResponse(v)] + rest) == GatherAll(owner, bag.(requestResponse := Unless(v, false)), rest)
  {
  }

  lemma ThenRequestProblem(ok: Bytes -> bool, owner: Owner, bag: Bag, v: bool, rest: seq<Property>)
    requires owner.InConnect? && bag.requestProblem.None? && AllWellFormed(ok, rest)
    ensures AllWellFormed(ok, [RequestProblem(v)] + rest)
    ensures TotalSize([RequestProblem(v)] + rest) == DefaultedWeight(Some(v), true, 2) + TotalSize(rest)
    ensures GatherAll(owner, bag, [RequestProblem(v)] + rest) == GatherAll(owner, bag.(requestProblem := Unless(v, true)), rest)
  {
  }

  lemma AllConcat(ok: Bytes -> bool, a: seq<Property>, b: seq<Property>)
    requires AllWellFormed(ok, a) && AllWellFormed(ok, b)
    ensures AllWellFormed(ok, a + b)
  {
  }

  lemma UsersAreWellFormed(ok: Bytes -> bool, users: seq<UserProperty>)
    requires UsersOk(ok, users)
    ensures AllWellFormed(ok, UserList(users))
  {
  }

  lemma IdsAreWellFormed(ok: Bytes -> bool, ids: seq<NonZeroU32>)
    requires SubscriptionIdsOk(ids)
    ensures AllWellFormed(ok, IdList(ids))
  {
  }

  lemma ThenUsers(ok: Bytes -> bool, owner: Owner, bag: Bag, users: seq<UserProperty>, rest: seq<Property>)
    requires bag.users == [] && UsersOk(ok, users) && AllWellFormed(ok, rest)
    ensures AllWellFormed(ok, UserList(users) + rest)
    ensures TotalSize(UserList(users) + rest) == UsersWeight(users) + TotalSize(rest)
    ensures GatherAll(owner, bag, UserList(users) + rest) == GatherAll(owner, bag.(users := users), rest)
  {
    hide GatherAll, TotalSize, AllWellFormed, UserList, UsersWeight;
    UsersAreWellFormed(ok, users);
    AllConcat(ok, UserList(users), rest);
    GatherConcat(owner, bag, UserList(users), rest);
    GatherUsers(owner, bag, users);
    SizeConcat(UserList(users), rest);
    UsersSize(users);
    assert [] + users == users;
  }

  lemma ThenSubscriptionIds(ok: Bytes -> bool, bag: Bag, ids: seq<NonZeroU32>, rest: seq<Property>)
    requires bag.subscriptionIds == [] && SubscriptionIdsOk(ids) && AllWellFormed(ok, rest)
    ensures AllWellFormed(ok, IdList(ids) + rest)
    ensures TotalSize(IdList(ids) + rest) == IdsWeight(ids) + TotalSize(rest)
    ensures GatherAll(InPublish, bag, IdList(ids) + rest) == GatherAll(InPublish, bag.(subscriptionIds := ids), rest)
  {
    hide GatherAll, TotalSize, AllWellFormed, IdList, IdsWeight;
    IdsAreWellFormed(ok, ids);
    AllConcat(ok, IdList(ids), rest);
    GatherConcat(InPublish, bag, IdList(ids), rest);
    GatherIds(bag, ids);
    SizeConcat(IdList(ids), rest);
    IdsSize(ids);
    assert [] + ids == ids;
  }

  lemma ThenSubscriptionId(ok: Bytes -> bool, bag: Bag, o: Option<NonZeroU32>, rest: seq<Property>)
    requires bag.subscriptionIds == [] && (o.Some? ==> o.value < Varint.LIMIT) && AllWellFormed(ok, rest)
    ensures AllWellFormed(ok, MaybeSubscriptionId(o) + rest)
    ensures TotalSize(MaybeSubscriptionId(o) + rest) == (if o.Some? then IdWeight(o.value) else 0) + TotalSize(rest)
    ensures GatherAll(InSubscribe, bag, MaybeSubscriptionId(o) + rest) ==
      GatherAll(InSubscribe, bag.(subscriptionIds := if o.Some? then [o.value] else []), rest)
  {
    ThenOne(ok, InSubscribe, bag, MaybeSubscriptionId(o), rest);
    assert o.Some? ==> [] + [o.value] == [o.value];
  }

  lemma ThenNothing(ok: Bytes -> bool, owner: Owner, bag: Bag, last: seq<Property>)
    ensures last + [] == last && TotalSize([]) == 0 && AllWellFormed(ok, []) && GatherAll(owner, bag, []) == Success(bag)
  {
  }

  /** A list that encodes, and that gathers to a given bag. */
  ghost predicate Spreads(ok: Bytes -> bool, owner: Owner, ps: seq<Property>, bag: Bag, size: nat) {
    && AllWellFormed(ok, ps)
    && TotalSize(ps) == size
    && GatherAll(owner, EMPTY, ps) == Success(bag)
  }

  // --- PUBACK ---

  predicate PubAckPropertiesOk(ok: Bytes -> bool, p: PubAckProperties) {
    OptText(ok, p.reasonString) && UsersOk(ok, p.users)
  }

  lemma PubAckListBack(ok: Bytes -> bool, p: PubAckProperties)
    requires PubAckPropertiesOk(ok, p)
    ensures Spreads(ok, InPubAck, PubAckList(p), EMPTY.(reasonString := p.reasonString, users := p.users),
      TextWeight(p.reasonString) + UsersWeight(p.users))
  {
    hide GatherAll, TotalSize, AllWellFormed, MaybeReasonString, UserList;
    var bag := EMPTY.(reasonString := p.reasonString);
    ThenNothing(ok, InPubAck, bag.(users := p.users), UserList(p.users));
    ThenUsers(ok, InPubAck, bag, p.users, []);
    ThenReasonString(ok, InPubAck, EMPTY, p.reasonString, UserList(p.users));
  }

  // --- DISCONNECT ---

  predicate DisconnectPropertiesOk(ok: Bytes -> bool, p: DisconnectProperties) {
    OptExpiry(p.sessionExpiry) && OptText(ok, p.reasonString) && UsersOk(ok, p.users) && OptText(ok, p.serverReference)
  }

  lemma DisconnectListBack(ok: Bytes -> bool, p: DisconnectProperties)
    requires DisconnectPropertiesOk(ok, p)
    ensures Spreads(ok, InDisconnect, DisconnectList(p),
      EMPTY.(sessionExpiry := p.sessionExpiry, reasonString := p.reasonString, users := p.users, serverReference := p.serverReference),
      FixedWeight(p.sessionExpiry, 5) + TextWeight(p.reasonString) + UsersWeight(p.users) + TextWeight(p.serverReference))
  {
    hide GatherAll, TotalSize, AllWellFormed, MaybeExpiry, MaybeReasonString, MaybeServerReference, UserList;
    var l4 := MaybeServerReference(p.serverReference);
    var l3 := UserList(p.users) + l4;
    var l2 := MaybeReasonString(p.reasonString) + l3;
    var b1 := EMPTY.(sessionExpiry := p.sessionExpiry);
    var b2 := b1.(reasonString := p.reasonString);
    var b3 := b2.(users := p.users);
    ThenNothing(ok, InDisconnect, b3.(serverReference := p.serverReference), l4);
    ThenServerReference(ok, InDisconnect, b3, p.serverReference, []);
    ThenUsers(ok, InDisconnect, b2, p.users, l4);
    ThenReasonString(ok, InDisconnect, b1, p.reasonString, l3);
    ThenExpiry(ok, InDisconnect, EMPTY, p.sessionExpiry, l2);
  }

  // --- PUBLISH ---

  predicate PublishPropertiesOk(ok: Bytes -> bool, p: PublishProperties) {
    OptTopic(ok, p.responseTopic) && UsersOk(ok, p.users) && SubscriptionIdsOk(p.subscriptionIds) && OptText(ok, p.contentType)
  }

  function PublishBag(p: PublishProperties): Bag {
    EMPTY.(payloadIsUtf8 := Unless(p.payloadIsUtf8, false),
      messageExpiry := p.messageExpiry, topicAlias := p.topicAlias, responseTopic := p.responseTopic,
      correlationData := p.correlationData, users := p.users, subscriptionIds := p.subscriptionIds, contentType := p.contentType)
  }

  function PublishSize(p: PublishProperties): nat {
    DefaultedWeight(Some(p.payloadIsUtf8), false, 2) + FixedWeight(p.messageExpiry, 5) + FixedWeight(p.topicAlias, 3)
    + TextWeight(p.responseTopic) + TextWeight(p.correlationData) + UsersWeight(p.users)
    + IdsWeight(p.subscriptionIds) + TextWeight(p.contentType)
  }

  lemma PublishListBack(ok: Bytes -> bool, p: PublishProperties)
    requires PublishPropertiesOk(ok, p)
    ensures Spreads(ok, InPublish, PublishList(p), PublishBag(p), PublishSize(p))
    ensures PublishFromBag(PublishBag(p)) == p
  {
    hide GatherAll, TotalSize, AllWellFormed, MaybeMessageExpiry, MaybeTopicAlias, MaybeResponseTopic,
      MaybeCorrelationData, MaybeContentType, UserList, IdList;
    var l8 := MaybeContentType(p.contentType);
    var l7 := IdList(p.subscriptionIds) + l8;
    var l6 := UserList(p.users) + l7;
    var l5 := MaybeCorrelationData(p.correlationData) + l6;
    var l4 := MaybeResponseTopic(p.responseTopic) + l5;
    var l3 := MaybeTopicAlias(p.topicAlias) + l4;
    var l2 := MaybeMessageExpiry(p.messageExpiry) + l3;
    var b1 := EMPTY.(payloadIsUtf8 := Unless(p.payloadIsUtf8, false));
    var b2 := b1.(messageExpiry := p.messageExpiry);
    var b3 := b2.(topicAlias := p.topicAlias);
    var b4 := b3.(responseTopic := p.responseTopic);
    var b5 := b4.(correlationData := p.correlationData);
    var b6 := b5.(users := p.users);
    var b7 := b6.(subscriptionIds := p.subscriptionIds);
    ThenNothing(ok, InPublish, PublishBag(p), l8);
    ThenContentType(ok, InPublish, b7, p.contentType, []);
    ThenSubscriptionIds(ok, b6, p.subscriptionIds, l8);
    ThenUsers(ok, InPublish, b5, p.users, l7);
    ThenCorrelationData(ok, InPublish, b4, p.correlationData, l6);
    ThenResponseTopic(ok, InPublish, b3, p.responseTopic, l5);
    ThenTopicAlias(ok, InPublish, b2, p.topicAlias, l4);
    ThenMessageExpiry(ok, InPublish, b1, p.messageExpiry, l3);
    ThenPayloadIsUtf8(ok, InPublish, EMPTY, p.payloadIsUtf8, l2);
  }

  // --- SUBSCRIBE ---

  predicate SubscribePropertiesOk(ok: Bytes -> bool, id: Option<NonZeroU32>, users: seq<UserProperty>) {
    (id.Some? ==> id.value < Varint.LIMIT) && UsersOk(ok, users)
  }

  lemma SubscribeListBack(ok: Bytes -> bool, id: Option<NonZeroU32>, users: seq<UserProperty>)
    requires SubscribePropertiesOk(ok, id, users)
    ensures Spreads(ok, InSubscribe, SubscribeList(id, users),
      EMPTY.(subscriptionIds := if id.Some? then [id.value] else [], users := users),
      (if id.Some? then IdWeight(id.value) else 0) + UsersWeight(users))
  {
    hide GatherAll, TotalSize, AllWellFormed, MaybeSubscriptionId, UserList;
    var bag := EMPTY.(subscriptionIds := if id.Some? then [id.value] else []);
    ThenNothing(ok, InSubscribe, bag.(users := users), UserList(users));
    ThenUsers(ok, InSubscribe, bag, users, []);
    ThenSubscriptionId(ok, EMPTY, id, UserList(users));
  }

  // --- Will ---

  predicate WillPropertiesOk(ok: Bytes -> bool, p: WillProperties) {
    OptTopic(ok, p.responseTopic) && UsersOk(ok, p.users) && OptText(ok, p.contentType)
  }

  function WillBag(w: Will): Bag {
    EMPTY.(willDelay := Unless(w.delay, 0),
      payloadIsUtf8 := Unless(w.properties.payloadIsUtf8, false),
      messageExpiry := w.properties.messageExpiry, contentType := w.properties.contentType,
      responseTopic := w.properties.responseTopic, correlationData := w.properties.correlationData, users := w.properties.users)
  }

  function WillSize(w: Will): nat {
    DefaultedWeight(Some(w.delay), 0, 5) + DefaultedWeight(Some(w.properties.payloadIsUtf8), false, 2)
    + FixedWeight(w.properties.messageExpiry, 5) + TextWeight(w.properties.contentType)
    + TextWeight(w.properties.responseTopic) + TextWeight(w.properties.correlationData) + UsersWeight(w.properties.users)
  }

  lemma WillListBack(ok: Bytes -> bool, w: Will)
    requires WillPropertiesOk(ok, w.properties)
    ensures Spreads(ok, InWill, WillList(w), WillBag(w), WillSize(w))
  {
    hide GatherAll, TotalSize, AllWellFormed, MaybeMessageExpiry, MaybeResponseTopic, MaybeCorrelationData,
      MaybeContentType, UserList;
    var p := w.properties;
    var l7 := UserList(p.users);
    var l6 := MaybeCorrelationData(p.correlationData) + l7;
    var l5 := MaybeResponseTopic(p.responseTopic) + l6;
    var l4 := MaybeContentType(p.contentType) + l5;
    var l3 := MaybeMessageExpiry(p.messageExpiry) + l4;
    var l2 := [PayloadIsUtf8(p.payloadIsUtf8)] + l3;
    var b1 := EMPTY.(willDelay := Unless(w.delay, 0));
    var b2 := b1.(payloadIsUtf8 := Unless(p.payloadIsUtf8, false));
    var b3 := b2.(messageExpiry := p.messageExpiry);
    var b4 := b3.(contentType := p.contentType);
    var b5 := b4.(responseTopic := p.responseTopic);
    var b6 := b5.(correlationData := p.correlationData);
    ThenNothing(ok, InWill, WillBag(w), l7);
    ThenUsers(ok, InWill, b6, p.users, []);
    ThenCorrelationData(ok, InWill, b5, p.correlationData, l7);
    ThenResponseTopic(ok, InWill, b4, p.responseTopic, l6);
    ThenContentType(ok, InWill, b3, p.contentType, l5);
    ThenMessageExpiry(ok, InWill, b2, p.messageExpiry, l4);
    ThenPayloadIsUtf8(ok, InWill, b1, p.payloadIsUtf8, l3);
    ThenWillDelay(ok, InWill, EMPTY, w.delay, l2);
  }

  // --- CONNECT ---

  predicate ConnectPropertiesOk(ok: Bytes -> bool, p: ConnectProperties) {
    && WellFormedExpiry(p.sessionExpiry) && UsersOk(ok, p.users)
    && (p.authentication.Some? ==> ok(p.authentication.value.scheme))
  }

  function ConnectBag(p: ConnectProperties): Bag {
    EMPTY.(sessionExpiry := Unless(p.sessionExpiry, Duration(0)),
      receiveMaximum := Unless(p.receiveMaximum, 0xFFFF),
      maximumPacketSize := Unless(p.maximumPacketSize, 0xFFFF_FFFF),
      topicAliasMaximum := Unless(p.topicAliasMaximum, 0),
      requestResponse := Unless(p.requestResponse, false),
      requestProblem := Unless(p.requestProblem, true),
      users := p.users, authMethod := AuthenticationMethod(p.authentication), authData := AuthenticationData(p.authentication))
  }

  function ConnectSize(p: ConnectProperties): nat {
    DefaultedWeight(Some(p.sessionExpiry), Duration(0), 5) + DefaultedWeight(Some(p.receiveMaximum), 0xFFFF, 3)
    + DefaultedWeight(Some(p.maximumPacketSize), 0xFFFF_FFFF, 5) + DefaultedWeight(Some(p.topicAliasMaximum), 0, 3)
    + DefaultedWeight(Some(p.requestResponse), false, 2) + DefaultedWeight(Some(p.requestProblem), true, 2) + UsersWeight(p.users)
    + TextWeight(AuthenticationMethod(p.authentication)) + TextWeight(AuthenticationData(p.authentication))
  }

  /** The second half of the list: user properties and authentication. */
  function ConnectTail(p: ConnectProperties): seq<Property> {
    UserList(p.users) + (MaybeAuthMethod(AuthenticationMethod(p.authentication)) + MaybeAuthData(AuthenticationData(p.authentication)))
  }

  lemma ConnectTailBack(ok: Bytes -> bool, bag: Bag, p: ConnectProperties)
    requires ConnectPropertiesOk(ok, p) && bag.users == [] && bag.authMethod == None && bag.authData == None
    ensures AllWellFormed(ok, ConnectTail(p))
    ensures TotalSize(ConnectTail(p)) ==
      UsersWeight(p.users) + TextWeight(AuthenticationMethod(p.authentication)) + TextWeight(AuthenticationData(p.authentication))
    ensures GatherAll(InConnect, bag, ConnectTail(p)) == Success(bag.(users := p.users,
      authMethod := AuthenticationMethod(p.authentication), authData := AuthenticationData(p.authentication)))
  {
    hide GatherAll, TotalSize, AllWellFormed, MaybeAuthMethod, MaybeAuthData, UserList;
    var l3 := MaybeAuthData(AuthenticationData(p.authentication));
    var l2 := MaybeAuthMethod(AuthenticationMethod(p.authentication)) + l3;
    var b1 := bag.(users := p.users);
    var b2 := b1.(authMethod := AuthenticationMethod(p.authentication));
    ThenNothing(ok, InConnect, b2.(authData := AuthenticationData(p.authentication)), l3);
    ThenAuthData(ok, InConnect, b2, AuthenticationData(p.authentication), []);
    ThenAuthMethod(ok, InConnect, b1, AuthenticationMethod(p.authentication), l3);
    ThenUsers(ok, InConnect, bag, p.users, l2);
  }

  lemma ConnectListBack(ok: Bytes -> bool, p: ConnectProperties)
    requires ConnectPropertiesOk(ok, p)
    ensures Spreads(ok, InConnect, ConnectList(p), ConnectBag(p), ConnectSize(p))
  {
    hide GatherAll, TotalSize, AllWellFormed, MaybeAuthMethod, MaybeAuthData, UserList, UsersWeight, TextWeight;
    hide Unless, DefaultedWeight, UsersOk, ConnectPropertiesOk, AuthenticationMethod, AuthenticationData;
    var l7 := ConnectTail(p);
    var l6 := [RequestProblem(p.requestProblem)] + l7;
    var l5 := [RequestResponse(p.requestResponse)] + l6;
    var l4 := [TopicAliasMaximum(p.topicAliasMaximum)] + l5;
    var l3 := [MaximumPacketSize(p.maximumPacketSize)] + l4;
    var l2 := [ReceiveMaximum(p.receiveMaximum)] + l3;
    var b1 := EMPTY.(sessionExpiry := Unless(p.sessionExpiry, Duration(0)));
    var b2 := b1.(receiveMaximum := Unless(p.receiveMaximum, 0xFFFF));
    var b3 := b2.(maximumPacketSize := Unless(p.maximumPacketSize, 0xFFFF_FFFF));
    var b4 := b3.(topicAliasMaximum := Unless(p.topicAliasMaximum, 0));
    var b5 := b4.(requestResponse := Unless(p.requestResponse, false));
    var b6 := b5.(requestProblem := Unless(p.requestProblem, true));
    ConnectTailBack(ok, b6, p);
    ThenRequestProblem(ok, InConnect, b5, p.requestProblem, l7);
    ThenRequestResponse(ok, InConnect, b4, p.requestResponse, l6);
    ThenTopicAliasMaximum(ok, InConnect, b3, p.topicAliasMaximum, l5);
    ThenMaximumPacketSize(ok, InConnect, b2, p.maximumPacketSize, l4);
    ThenReceiveMaximum(ok, InConnect, b1, p.receiveMaximum, l3);
    assert WellFormedExpiry(p.sessionExpiry) by { ConnectExpiryOk(ok, p); }
    ThenConnectSessionExpiry(ok, InConnect, EMPTY, p.sessionExpiry, l2);
  }

  lemma ConnectExpiryOk(ok: Bytes -> bool, p: ConnectProperties)
    requires ConnectPropertiesOk(ok, p)
    ensures WellFormedExpiry(p.sessionExpiry)
  {
  }

  lemma ConnectBagBack(p: ConnectProperties)
    ensures ConnectFromBag(ConnectBag(p)) == Success(p)
  {
  }
}
