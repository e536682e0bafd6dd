/**
 * What a decoder makes of properties that are written out: in any order, and at their default values too.
 *
 * An encoder omits a property at its default, so round trips say nothing about the bytes of one. Here every property is
 * written, and the record that comes out holds exactly the values that were written.
 */
module Explicit {
  import opened Wrappers
  import opened Bytes
  import opened Packets
  import opened Wire
  import opened Properties
  import opened PropertyLists
  import opened Codec
  import opened RoundTrip
  import opened Layout
  import TopicFilter
  import Varint

  // --- One property ---

  /** What an identifier and a value are read as is written with that identifier and that value. */
  lemma ReadAsWritten(id: byte, v: Value)
    requires TypeOf(id).Some? && HasType(v, TypeOf(id).value)
    ensures FromWire(id, v).Success? ==> ToWire(FromWire(id, v).value) == (id, v)
  {
  }

  /** Properties that can be on the wire; a maximum QoS of 2 is expressed by leaving the property out. */
  predicate OnTheWire(ok: Bytes -> bool, p: Property) {
    WellFormed(ok, p) && !p.ConnectSessionExpiry? && p != MaximumQoS(ExactlyOnce)
  }

  lemma WrittenIsRead(ok: Bytes -> bool, p: Property)
    requires OnTheWire(ok, p)
    ensures var (id, v) := ToWire(p);
      WellFormedValue(ok, v) && TypeOf(id).Some? && HasType(v, TypeOf(id).value) && FromWire(id, v) == Success(p)
  {
  }

  lemma WrittenBytes(p: Property)
    ensures var (id, v) := ToWire(p);
      ValueOps(v).Success? ==> PropertyBytes(p) == [id] + OpsBytes(ValueOps(v).value)
  {
    hide ValueOps, Str, Word, Long, Length, FlagBit;
    var (id, v) := ToWire(p);
    if ValueOps(v).Success? {
      ValueLaidOut(v);
    }
  }

  /** Any property, at its default or not, is read back from its bytes, and nothing after it is touched. */
  lemma PropertyIsRead(ok: Bytes -> bool, p: Property, rest: Bytes)
    requires OnTheWire(ok, p)
    ensures DecodeOne(ok, PropertyBytes(p) + rest) == Success((p, rest))
  {
    hide ToWire, FromWire, TypeOf, GetValue, ValueOps, PropertyBytes, OnTheWire;
    WrittenIsRead(ok, p);
    var (id, v) := ToWire(p);
    ValueBack(ok, TypeOf(id).value, v, rest);
    WrittenBytes(p);
    var value := OpsBytes(ValueOps(v).value);
    assert PropertyBytes(p) + rest == [id] + (value + rest);
    U8Back(id, value + rest);
  }

  // --- Lists ---

  function AllBytes(ps: seq<Property>): Bytes {
    if ps == [] then [] else PropertyBytes(ps[0]) + AllBytes(ps[1..])
  }

  predicate AllOnTheWire(ok: Bytes -> bool, ps: seq<Property>) {
    forall i :: 0 <= i < |ps| ==> OnTheWire(ok, ps[i])
  }

  function GatherEach(owner: Owner, bag: Bag, ps: seq<Property>): Result<Bag, DecodeError>
    decreases |ps|
  {
    if ps == [] then Success(bag)
    else
      var more :- Gather(owner, bag, ps[0]);
      GatherEach(owner, more, ps[1..])
  }

  lemma {:induction false} ListIsRead(ok: Bytes -> bool, owner: Owner, bag: Bag, ps: seq<Property>)
    requires AllOnTheWire(ok, ps)
    ensures DecodeInto(ok, owner, AllBytes(ps), bag) == GatherEach(owner, bag, ps)
    decreases |ps|
  {
    hide DecodeOne, Gather, PropertyBytes, OnTheWire;
    if ps != [] {
      PropertyIsRead(ok, ps[0], AllBytes(ps[1..]));
      NotEmpty(ps[0]);
      var more := Gather(owner, bag, ps[0]);
      if more.Success? {
        ListIsRead(ok, owner, more.value, ps[1..]);
      }
    }
  }

  lemma NotEmpty(p: Property)
    ensures PropertyBytes(p) != []
  {
  }

  lemma SizedIsRead(ok: Bytes -> bool, owner: Owner, ps: seq<Property>, rest: Bytes)
    requires AllOnTheWire(ok, ps) && |AllBytes(ps)| < 268435456
    ensures DecodeList(ok, owner, Sized(AllBytes(ps)) + rest) ==
      match GatherEach(owner, EMPTY, ps)
      case Success(bag) => Success((bag, rest))
      case Failure(e) => Failure(e)
  {
    hide DecodeInto, AllBytes, AllOnTheWire;
    ListIsRead(ok, owner, EMPTY, ps);
    LengthLaidOut(|AllBytes(ps)|);
    DecodeListOf(ok, owner, AllBytes(ps), rest);
  }

  // --- What a list is gathered into ---

  /** The identifiers that a list may contain: sections 3.1.2.11, 3.1.3.2, 3.3.2.3, 3.8.2.1, 3.14.2.2 and 3.4.2.2. */
  function AllowedIds(owner: Owner): set<byte> {
    match owner
    case InConnect => {0x11, 0x21, 0x27, 0x22, 0x19, 0x17, 0x26, 0x15, 0x16}
    case InWill => {0x18, 0x01, 0x02, 0x03, 0x08, 0x09, 0x26}
    case InPublish => {0x01, 0x02, 0x23, 0x08, 0x09, 0x26, 0x0B, 0x03}
    case InSubscribe => {0x0B, 0x26}
    case InDisconnect => {0x11, 0x1F, 0x26, 0x1C}
    case InPubAck => {0x1F, 0x26}
  }

  function IdOf(p: Property): byte {
    NotEmpty(p);
    PropertyBytes(p)[0]
  }

  /** A user property may be repeated, and in a PUBLISH a subscription identifier. */
  predicate Repeatable(owner: Owner, id: byte) {
    id == 0x26 || (id == 0x0B && !owner.InSubscribe?)
  }

  ghost predicate ListOk(owner: Owner, ps: seq<Property>) {
    && (forall i :: 0 <= i < |ps| ==> IdOf(ps[i]) in AllowedIds(owner))
    && (forall i, j :: 0 <= i < j < |ps| && IdOf(ps[i]) == IdOf(ps[j]) ==> Repeatable(owner, IdOf(ps[i])))
  }

  /** The value that a bag holds for a property that occurs at most once. */
  predicate Holds(b: Bag, p: Property) {
    match p
    case PayloadIsUtf8(v) => b.payloadIsUtf8 == Some(v)
    case MessageExpiry(v) => b.messageExpiry == Some(v)
    case ContentType(v) => b.contentType == Some(v)
    case ResponseTopic(v) => b.responseTopic == Some(v)
    case CorrelationData(v) => b.correlationData == Some(v)
    case Expiry(v) => b.sessionExpiry == Some(v)
    case AuthMethod(v) => b.authMethod == Some(v)
    case AuthData(v) => b.authData == Some(v)
    case RequestProblem(v) => b.requestProblem == Some(v)
    case WillDelay(v) => b.willDelay == Some(v)
    case RequestResponse(v) => b.requestResponse == Some(v)
    case ServerReference(v) => b.serverReference == Some(v)
    case ReasonString(v) => b.reasonString == Some(v)
    case ReceiveMaximum(v) => b.receiveMaximum == Some(v)
    case TopicAliasMaximum(v) => b.topicAliasMaximum == Some(v)
    case TopicAlias(v) => b.topicAlias == Some(v)
    case MaximumPacketSize(v) => b.maximumPacketSize == Some(v)
    case _ => false
  }

  function UsersIn(ps: seq<Property>): seq<UserProperty> {
    if ps == [] then [] else UsersIn(ps[..|ps| - 1]) + (if ps[|ps| - 1].User? then [ps[|ps| - 1].pair] else [])
  }

  function IdsIn(ps: seq<Property>): seq<NonZeroU32> {
    if ps == [] then []
    else IdsIn(ps[..|ps| - 1]) + (if ps[|ps| - 1].SubscriptionId? then [ps[|ps| - 1].subscription] else [])
  }

  /** The bag holds exactly the values of the list. */
  ghost predicate Describes(b: Bag, ps: seq<Property>) {
    && (forall p: Property :: !p.User? && !p.SubscriptionId? ==> (Holds(b, p) <==> p in ps))
    && b.users == UsersIn(ps) && b.subscriptionIds == IdsIn(ps)
  }

  lemma AllowsById(owner: Owner, p: Property)
    requires !p.ConnectSessionExpiry?
    ensures Allows(owner, p) <==> IdOf(p) in AllowedIds(owner)
  {
    hide IdOf, Allows, AllowedIds;
    IdIsWritten(p);
    if owner.InConnect? {
      ConnectAllows(p);
    } else if owner.InWill? || owner.InPublish? {
      MessageAllows(owner, p);
    } else {
      OthersAllow(owner, p);
    }
  }

  lemma ConnectAllows(p: Property)
    requires !p.ConnectSessionExpiry?
    ensures Allows(InConnect, p) <==> ToWire(p).0 in AllowedIds(InConnect)
  {
  }

  lemma MessageAllows(owner: Owner, p: Property)
    requires owner.InWill? || owner.InPublish?
    ensures Allows(owner, p) <==> ToWire(p).0 in AllowedIds(owner)
  {
  }

  lemma OthersAllow(owner: Owner, p: Property)
    requires (owner.InSubscribe? || owner.InDisconnect? || owner.InPubAck?) && !p.ConnectSessionExpiry?
    ensures Allows(owner, p) <==> ToWire(p).0 in AllowedIds(owner)
  {
  }

  lemma IdIsWritten(p: Property)
    ensures IdOf(p) == ToWire(p).0
  {
    hide Str, Word, Long, Length, FlagBit;
  }

  /** Whether a property with this identifier has been gathered and may not come again. */
  predicate OccupiedId(owner: Owner, b: Bag, id: byte) {
    if id == 0x01 then b.payloadIsUtf8.Some?
    else if id == 0x02 then b.messageExpiry.Some?
    else if id == 0x03 then b.contentType.Some?
    else if id == 0x08 then b.responseTopic.Some?
    else if id == 0x09 then b.correlationData.Some?
    else if id == 0x11 then b.sessionExpiry.Some?
    else if id == 0x15 then b.authMethod.Some?
    else if id == 0x16 then b.authData.Some?
    else if id == 0x17 then b.requestProblem.Some?
    else if id == 0x18 then b.willDelay.Some?
    else if id == 0x19 then b.requestResponse.Some?
    else if id == 0x1C then b.serverReference.Some?
    else if id == 0x1F then b.reasonString.Some?
    else if id == 0x21 then b.receiveMaximum.Some?
    else if id == 0x22 then b.topicAliasMaximum.Some?
    else if id == 0x23 then b.topicAlias.Some?
    else if id == 0x27 then b.maximumPacketSize.Some?
    else id == 0x0B && owner.InSubscribe? && b.subscriptionIds != []
  }

  lemma OccupiedIsById(owner: Owner, b: Bag, p: Property)
    requires !p.ConnectSessionExpiry?
    ensures Occupied(owner, b, p) <==> OccupiedId(owner, b, IdOf(p))
    ensures p.User? <==> IdOf(p) == 0x26
    ensures p.SubscriptionId? <==> IdOf(p) == 0x0B
  {
    hide IdOf, PropertyBytes;
    IdIsWritten(p);
  }

  /** What the bag holds is of the same kind, and is there if the kind is occupied. */
  lemma OccupiedHolds(owner: Owner, b: Bag, p: Property)
    requires Occupied(owner, b, p) && !p.User? && !p.SubscriptionId?
    ensures Holds(b, Same(b, p)) && IdOf(Same(b, p)) == IdOf(p) && !Same(b, p).User? && !Same(b, p).SubscriptionId?
  {
    hide IdOf, PropertyBytes;
    IdIsWritten(p);
    IdIsWritten(Same(b, p));
  }

  lemma HeldIsOccupied(owner: Owner, b: Bag, p: Property)
    requires Holds(b, p)
    ensures Occupied(owner, b, p)
  {
  }

  /** A property is a duplicate exactly if its identifier has occurred and may not be repeated. */
  lemma OccupiedById(owner: Owner, bag: Bag, done: seq<Property>, p: Property)
    requires Describes(bag, done) && !p.ConnectSessionExpiry?
    requires forall q :: q in done ==> !q.ConnectSessionExpiry?
    ensures Occupied(owner, bag, p) <==> !Repeatable(owner, IdOf(p)) && exists q :: q in done && IdOf(q) == IdOf(p)
  {
    hide IdOf, Occupied, Holds, OccupiedId;
    OccupiedIsById(owner, bag, p);
    forall r | r in done && IdOf(r) == IdOf(p) && !Repeatable(owner, IdOf(p))
      ensures Occupied(owner, bag, p)
    {
      OccupiedIsById(owner, bag, r);
      if p.SubscriptionId? {
        IdsPresent(done);
        SubscriptionIdOccupies(owner, bag, p);
      } else {
        assert Holds(bag, r);
        HeldIsOccupied(owner, bag, r);
      }
    }
    if Occupied(owner, bag, p) {
      NotRepeatable(owner, bag, p);
      if p.SubscriptionId? {
        SubscriptionIdOccupies(owner, bag, p);
        IdsPresent(done);
        var q :| q in done && q.SubscriptionId?;
        OccupiedIsById(owner, bag, q);
      } else {
        OccupiedHolds(owner, bag, p);
        assert Same(bag, p) in done;
      }
    }
  }

  lemma SubscriptionIdOccupies(owner: Owner, b: Bag, p: Property)
    requires p.SubscriptionId?
    ensures Occupied(owner, b, p) <==> owner.InSubscribe? && b.subscriptionIds != []
    ensures Repeatable(owner, IdOf(p)) <==> !owner.InSubscribe?
  {
  }

  lemma NotRepeatable(owner: Owner, b: Bag, p: Property)
    requires Occupied(owner, b, p)
    ensures !p.User? && !Repeatable(owner, IdOf(p))
  {
    hide IdOf, PropertyBytes;
    IdIsWritten(p);
  }

  lemma {:induction false} IdsPresent(ps: seq<Property>)
    ensures IdsIn(ps) != [] <==> exists q :: q in ps && q.SubscriptionId?
  {
    if ps != [] {
      var init, last := ps[..|ps| - 1], ps[|ps| - 1];
      IdsPresent(init);
      assert ps == init + [last];
    }
  }

  /** The property of the same kind with the value that the bag holds. */
  function Same(b: Bag, p: Property): Property {
    match p
    case PayloadIsUtf8(v) => PayloadIsUtf8(OrElse(b.payloadIsUtf8, v))
    case MessageExpiry(v) => MessageExpiry(OrElse(b.messageExpiry, v))
    case ContentType(v) => ContentType(OrElse(b.contentType, v))
    case ResponseTopic(v) => ResponseTopic(OrElse(b.responseTopic, v))
    case CorrelationData(v) => CorrelationData(OrElse(b.correlationData, v))
    case Expiry(v) => Expiry(OrElse(b.sessionExpiry, v))
    case AuthMethod(v) => AuthMethod(OrElse(b.authMethod, v))
    case AuthData(v) => AuthData(OrElse(b.authData, v))
    case RequestProblem(v) => RequestProblem(OrElse(b.requestProblem, v))
    case WillDelay(v) => WillDelay(OrElse(b.willDelay, v))
    case RequestResponse(v) => RequestResponse(OrElse(b.requestResponse, v))
    case ServerReference(v) => ServerReference(OrElse(b.serverReference, v))
    case ReasonString(v) => ReasonString(OrElse(b.reasonString, v))
    case ReceiveMaximum(v) => ReceiveMaximum(OrElse(b.receiveMaximum, v))
    case TopicAliasMaximum(v) => TopicAliasMaximum(OrElse(b.topicAliasMaximum, v))
    case TopicAlias(v) => TopicAlias(OrElse(b.topicAlias, v))
    case MaximumPacketSize(v) => MaximumPacketSize(OrElse(b.maximumPacketSize, v))
    case _ => p
  }

  /** Gathering one more property describes one more. */
  lemma StoreDescribes(owner: Owner, bag: Bag, done: seq<Property>, p: Property)
    requires Describes(bag, done) && Allows(owner, p) && !Occupied(owner, bag, p)
    ensures Describes(Store(bag, p), done + [p])
  {
    var b, ps := Store(bag, p), done + [p];
    assert ps[..|ps| - 1] == done;
    forall q: Property | !q.User? && !q.SubscriptionId?
      ensures Holds(b, q) <==> q in ps
    {
      StoreHolds(owner, bag, p, q);
      assert q in ps <==> q in done || q == p;
    }
    StoreLists(bag, p);
  }

  lemma StoreHolds(owner: Owner, bag: Bag, p: Property, q: Property)
    requires Allows(owner, p) && !Occupied(owner, bag, p) && !q.User? && !q.SubscriptionId?
    ensures Holds(Store(bag, p), q) <==> Holds(bag, q) || q == p
  {
    hide Holds, Store, Occupied, Allows, Stored;
    AllowedIsStored(owner, p);
    if IsText(q) {
      StoreHoldsText(owner, bag, p, q);
    } else if IsNumber(q) {
      StoreHoldsNumber(owner, bag, p, q);
    } else {
      StoreHoldsFlag(owner, bag, p, q);
    }
  }

  /** The properties that some list may contain. */
  predicate Stored(p: Property) {
    || IsText(p) || IsNumber(p) || p.User? || p.SubscriptionId?
    || p.PayloadIsUtf8? || p.Expiry? || p.RequestProblem? || p.RequestResponse?
  }

  lemma AllowedIsStored(owner: Owner, p: Property)
    requires Allows(owner, p)
    ensures Stored(p)
  {
  }

  predicate IsNumber(q: Property) {
    q.MessageExpiry? || q.WillDelay? || q.ReceiveMaximum? || q.TopicAliasMaximum? || q.TopicAlias? || q.MaximumPacketSize?
  }

  lemma StoreHoldsText(owner: Owner, bag: Bag, p: Property, q: Property)
    requires Stored(p) && !Occupied(owner, bag, p) && IsText(q)
    ensures Holds(Store(bag, p), q) <==> Holds(bag, q) || q == p
  {
  }

  lemma StoreHoldsNumber(owner: Owner, bag: Bag, p: Property, q: Property)
    requires Stored(p) && !Occupied(owner, bag, p) && IsNumber(q)
    ensures Holds(Store(bag, p), q) <==> Holds(bag, q) || q == p
  {
  }

  lemma StoreHoldsFlag(owner: Owner, bag: Bag, p: Property, q: Property)
    requires Stored(p) && !Occupied(owner, bag, p) && !IsText(q) && !IsNumber(q) && !q.User? && !q.SubscriptionId?
    ensures Holds(Store(bag, p), q) <==> Holds(bag, q) || q == p
  {
  }

  lemma StoreLists(bag: Bag, p: Property)
    ensures Store(bag, p).users == bag.users + (if p.User? then [p.pair] else [])
    ensures Store(bag, p).subscriptionIds == bag.subscriptionIds + (if p.SubscriptionId? then [p.subscription] else [])
  {
  }

  lemma ListOkSnoc(owner: Owner, done: seq<Property>, p: Property)
    ensures ListOk(owner, done + [p]) <==>
      && ListOk(owner, done) && IdOf(p) in AllowedIds(owner)
      && (Repeatable(owner, IdOf(p)) || !exists q :: q in done && IdOf(q) == IdOf(p))
  {
    hide IdOf, AllowedIds, Repeatable;
    var ps := done + [p];
    assert ps[|done|] == p;
    if ListOk(owner, ps) {
      ListOkPrefix(owner, done, [p]);
      forall q | q in done && IdOf(q) == IdOf(p)
        ensures Repeatable(owner, IdOf(p))
      {
        var i :| 0 <= i < |done| && done[i] == q;
        assert ps[i] == q && IdOf(ps[i]) == IdOf(ps[|done|]);
      }
    } else if ListOk(owner, done) && IdOf(p) in AllowedIds(owner) {
      if forall q :: q in done && IdOf(q) == IdOf(p) ==> Repeatable(owner, IdOf(p)) {
        forall i, j | 0 <= i < j < |ps| && IdOf(ps[i]) == IdOf(ps[j])
          ensures Repeatable(owner, IdOf(ps[i]))
        {
          assert ps[i] == done[i] && done[i] in done;
          assert j < |done| ==> ps[j] == done[j];
        }
      }
    }
  }

  lemma ListOkPrefix(owner: Owner, a: seq<Property>, b: seq<Property>)
    requires ListOk(owner, a + b)
    ensures ListOk(owner, a)
  {
    hide IdOf, AllowedIds;
    assert forall i :: 0 <= i < |a| ==> (a + b)[i] == a[i];
  }

  lemma GatherOne(owner: Owner, bag: Bag, done: seq<Property>, p: Property)
    requires Describes(bag, done) && !p.ConnectSessionExpiry? && ListOk(owner, done)
    requires forall q :: q in done ==> !q.ConnectSessionExpiry?
    ensures Gather(owner, bag, p).Success? <==> ListOk(owner, done + [p])
    ensures Gather(owner, bag, p).Success? ==> Describes(Gather(owner, bag, p).value, done + [p])
  {
    hide IdOf, AllowedIds, Allows, Occupied, Store, Describes, ListOk;
    AllowsById(owner, p);
    OccupiedById(owner, bag, done, p);
    ListOkSnoc(owner, done, p);
    if Allows(owner, p) && !Occupied(owner, bag, p) {
      StoreDescribes(owner, bag, done, p);
    }
  }

  lemma {:induction false} GatherFrom(owner: Owner, bag: Bag, done: seq<Property>, ps: seq<Property>)
    requires Describes(bag, done) && ListOk(owner, done)
    requires forall q :: q in done || q in ps ==> !q.ConnectSessionExpiry?
    ensures GatherEach(owner, bag, ps).Success? <==> ListOk(owner, done + ps)
    ensures GatherEach(owner, bag, ps).Success? ==> Describes(GatherEach(owner, bag, ps).value, done + ps)
    decreases |ps|
  {
    hide Describes, ListOk, Gather;
    if ps == [] {
      assert done + ps == done;
    } else {
      var next := done + [ps[0]];
      assert next + ps[1..] == done + ps;
      GatherOne(owner, bag, done, ps[0]);
      if ListOk(owner, next) {
        GatherFrom(owner, Gather(owner, bag, ps[0]).value, next, ps[1..]);
      } else if ListOk(owner, done + ps) {
        ListOkPrefix(owner, next, ps[1..]);
      }
    }
  }

  lemma EmptyDescribes(owner: Owner)
    ensures Describes(EMPTY, []) && ListOk(owner, [])
  {
  }

  /**
   * A list of properties, in any order and with defaults written out, is accepted exactly if each identifier is allowed
   * and only those that may be repeated are; and then exactly the values of the list are gathered.
   */
  lemma ListGathered(ok: Bytes -> bool, owner: Owner, ps: seq<Property>, rest: Bytes)
    requires AllOnTheWire(ok, ps) && |AllBytes(ps)| < 268435456
    ensures var r := DecodeList(ok, owner, Sized(AllBytes(ps)) + rest);
      && (r.Success? <==> ListOk(owner, ps))
      && (r.Success? ==> r.value.1 == rest && Describes(r.value.0, ps))
  {
    hide DecodeList, Sized, AllBytes, GatherEach, Describes, ListOk;
    SizedIsRead(ok, owner, ps, rest);
    EmptyDescribes(owner);
    assert forall q :: q in ps ==> !q.ConnectSessionExpiry?;
    GatherFrom(owner, EMPTY, [], ps);
    assert [] + ps == ps;
  }

  // --- Packets ---

  ghost predicate PublishCarries(p: PublishProperties, ps: seq<Property>) {
    && (p.payloadIsUtf8 <==> PayloadIsUtf8(true) in ps)
    && (forall n: u32 :: p.messageExpiry == Some(n) <==> MessageExpiry(n) in ps)
    && (forall n: NonZeroU16 :: p.topicAlias == Some(n) <==> TopicAlias(n) in ps)
    && (forall t: Text :: p.responseTopic == Some(t) <==> ResponseTopic(t) in ps)
    && (forall t: Text :: p.correlationData == Some(t) <==> CorrelationData(t) in ps)
    && (forall t: Text :: p.contentType == Some(t) <==> ContentType(t) in ps)
    && p.users == UsersIn(ps) && p.subscriptionIds == IdsIn(ps)
  }

  ghost predicate WillCarries(w: Will, ps: seq<Property>) {
    && (forall n: u32 :: WillDelay(n) in ps ==> w.delay == n) && ((forall n: u32 :: WillDelay(n) !in ps) ==> w.delay == 0)
    && (w.properties.payloadIsUtf8 <==> PayloadIsUtf8(true) in ps)
    && (forall n: u32 :: w.properties.messageExpiry == Some(n) <==> MessageExpiry(n) in ps)
    && (forall t: Text :: w.properties.contentType == Some(t) <==> ContentType(t) in ps)
    && (forall t: Text :: w.properties.responseTopic == Some(t) <==> ResponseTopic(t) in ps)
    && (forall t: Text :: w.properties.correlationData == Some(t) <==> CorrelationData(t) in ps)
    && w.properties.users == UsersIn(ps)
  }

  ghost predicate LimitsCarried(p: ConnectProperties, ps: seq<Property>) {
    && (forall e :: Expiry(e) in ps ==> p.sessionExpiry == e) && ((forall e :: Expiry(e) !in ps) ==> p.sessionExpiry == Duration(0))
    && (forall n: NonZeroU16 :: ReceiveMaximum(n) in ps ==> p.receiveMaximum == n)
    && ((forall n: NonZeroU16 :: ReceiveMaximum(n) !in ps) ==> p.receiveMaximum == 65535)
    && (forall n: NonZeroU32 :: MaximumPacketSize(n) in ps ==> p.maximumPacketSize == n)
    && ((forall n: NonZeroU32 :: MaximumPacketSize(n) !in ps) ==> p.maximumPacketSize == 4294967295)
    && (forall n: u16 :: TopicAliasMaximum(n) in ps ==> p.topicAliasMaximum == n)
    && ((forall n: u16 :: TopicAliasMaximum(n) !in ps) ==> p.topicAliasMaximum == 0)
  }

  ghost predicate AuthenticationCarried(a: Option<Authentication>, ps: seq<Property>) {
    match a
    case None => forall t: Text :: AuthMethod(t) !in ps && AuthData(t) !in ps
    case Some(x) => AuthMethod(x.scheme) in ps && forall t: Text :: x.data == Some(t) <==> AuthData(t) in ps
  }

  ghost predicate ConnectCarries(p: ConnectProperties, ps: seq<Property>) {
    && LimitsCarried(p, ps)
    && (p.requestResponse <==> RequestResponse(true) in ps) && (p.requestProblem <==> RequestProblem(false) !in ps)
    && p.users == UsersIn(ps)
    && AuthenticationCarried(p.authentication, ps)
  }

  ghost predicate DisconnectCarries(p: DisconnectProperties, ps: seq<Property>) {
    && (forall e :: p.sessionExpiry == Some(e) <==> Expiry(e) in ps)
    && (forall t: Text :: p.reasonString == Some(t) <==> ReasonString(t) in ps)
    && (forall t: Text :: p.serverReference == Some(t) <==> ServerReference(t) in ps)
    && p.users == UsersIn(ps)
  }

  ghost predicate PubAckCarries(p: PubAckProperties, ps: seq<Property>) {
    (forall t: Text :: p.reasonString == Some(t) <==> ReasonString(t) in ps) && p.users == UsersIn(ps)
  }

  ghost predicate SubscribeCarries(s: Subscribe, ps: seq<Property>) {
    IdsIn(ps) == (if s.subscriptionId.Some? then [s.subscriptionId.value] else []) && s.users == UsersIn(ps)
  }

  /** A described string is the one in the list. */
  lemma TextFields(b: Bag, ps: seq<Property>, o: Option<Text>)
    requires Describes(b, ps)
    ensures (forall t: Text :: o == Some(t) <==> ResponseTopic(t) in ps) ==> b.responseTopic == o
    ensures (forall t: Text :: o == Some(t) <==> CorrelationData(t) in ps) ==> b.correlationData == o
    ensures (forall t: Text :: o == Some(t) <==> ContentType(t) in ps) ==> b.contentType == o
  {
    hide UsersIn, IdsIn;
    var r, c, t := Same(b, ResponseTopic(OrElse(o, []))), Same(b, CorrelationData(OrElse(o, []))), Same(b, ContentType(OrElse(o, [])));
    assert Holds(b, r) <==> r in ps;
    assert Holds(b, c) <==> c in ps;
    assert Holds(b, t) <==> t in ps;
    if o.Some? {
      assert Holds(b, ResponseTopic(o.value)) <==> ResponseTopic(o.value) in ps;
      assert Holds(b, CorrelationData(o.value)) <==> CorrelationData(o.value) in ps;
      assert Holds(b, ContentType(o.value)) <==> ContentType(o.value) in ps;
    }
  }

  lemma ControlTextFields(b: Bag, ps: seq<Property>, o: Option<Text>)
    requires Describes(b, ps)
    ensures (forall t: Text :: o == Some(t) <==> ReasonString(t) in ps) ==> b.reasonString == o
    ensures (forall t: Text :: o == Some(t) <==> ServerReference(t) in ps) ==> b.serverReference == o
    ensures (forall t: Text :: o == Some(t) <==> AuthData(t) in ps) ==> b.authData == o
    ensures (forall t: Text :: o == Some(t) <==> AuthMethod(t) in ps) ==> b.authMethod == o
  {
    hide UsersIn, IdsIn;
    var r, c := Same(b, ReasonString(OrElse(o, []))), Same(b, ServerReference(OrElse(o, [])));
    var t, m := Same(b, AuthData(OrElse(o, []))), Same(b, AuthMethod(OrElse(o, [])));
    assert Holds(b, r) <==> r in ps;
    assert Holds(b, c) <==> c in ps;
    assert Holds(b, t) <==> t in ps;
    assert Holds(b, m) <==> m in ps;
    if o.Some? {
      assert Holds(b, ReasonString(o.value)) <==> ReasonString(o.value) in ps;
      assert Holds(b, ServerReference(o.value)) <==> ServerReference(o.value) in ps;
      assert Holds(b, AuthData(o.value)) <==> AuthData(o.value) in ps;
      assert Holds(b, AuthMethod(o.value)) <==> AuthMethod(o.value) in ps;
    }
  }

  lemma NumberFields(b: Bag, ps: seq<Property>, o: Option<u32>, alias: Option<NonZeroU16>, e: Option<SessionExpiry>)
    requires Describes(b, ps)
    ensures (forall n: u32 :: o == Some(n) <==> MessageExpiry(n) in ps) ==> b.messageExpiry == o
    ensures (forall n: NonZeroU16 :: alias == Some(n) <==> TopicAlias(n) in ps) ==> b.topicAlias == alias
    ensures (forall x :: e == Some(x) <==> Expiry(x) in ps) ==> b.sessionExpiry == e
  {
    hide UsersIn, IdsIn;
    var r, c, t := Same(b, MessageExpiry(OrElse(o, 0))), Same(b, TopicAlias(OrElse(alias, 1))), Same(b, Expiry(OrElse(e, Infinite)));
    assert Holds(b, r) <==> r in ps;
    assert Holds(b, c) <==> c in ps;
    assert Holds(b, t) <==> t in ps;
    assert o.Some? ==> (Holds(b, MessageExpiry(o.value)) <==> MessageExpiry(o.value) in ps);
    assert alias.Some? ==> (Holds(b, TopicAlias(alias.value)) <==> TopicAlias(alias.value) in ps);
    assert e.Some? ==> (Holds(b, Expiry(e.value)) <==> Expiry(e.value) in ps);
  }

  lemma FlagFields(b: Bag, ps: seq<Property>)
    requires Describes(b, ps)
    ensures OrElse(b.payloadIsUtf8, false) <==> PayloadIsUtf8(true) in ps
    ensures OrElse(b.requestResponse, false) <==> RequestResponse(true) in ps
    ensures OrElse(b.requestProblem, true) <==> RequestProblem(false) !in ps
  {
    hide UsersIn, IdsIn;
    assert Holds(b, PayloadIsUtf8(true)) <==> PayloadIsUtf8(true) in ps;
    assert Holds(b, RequestResponse(true)) <==> RequestResponse(true) in ps;
    assert Holds(b, RequestProblem(false)) <==> RequestProblem(false) in ps;
  }

  lemma PublishFromList(bag: Bag, p: PublishProperties, ps: seq<Property>)
    requires Describes(bag, ps) && PublishCarries(p, ps)
    ensures PublishFromBag(bag) == p
  {
    hide Holds;
    FlagFields(bag, ps);
    NumberFields(bag, ps, p.messageExpiry, p.topicAlias, None);
    TextFields(bag, ps, p.responseTopic);
    TextFields(bag, ps, p.correlationData);
    TextFields(bag, ps, p.contentType);
  }

  /** A number that is written is that number; one that is not is its default. */
  lemma DefaultFields(b: Bag, ps: seq<Property>, delay: u32, alias: u16)
    requires Describes(b, ps)
    ensures (forall n: u32 :: WillDelay(n) in ps ==> delay == n) && ((forall n: u32 :: WillDelay(n) !in ps) ==> delay == 0)
      ==> OrElse(b.willDelay, 0) == delay
    ensures (forall n: u16 :: TopicAliasMaximum(n) in ps ==> alias == n) && ((forall n: u16 :: TopicAliasMaximum(n) !in ps) ==> alias == 0)
      ==> OrElse(b.topicAliasMaximum, 0) == alias
  {
    hide UsersIn, IdsIn;
    forall n: u32
      ensures b.willDelay == Some(n) <==> WillDelay(n) in ps
    {
      assert Holds(b, WillDelay(n)) <==> WillDelay(n) in ps;
    }
    forall n: u16
      ensures b.topicAliasMaximum == Some(n) <==> TopicAliasMaximum(n) in ps
    {
      assert Holds(b, TopicAliasMaximum(n)) <==> TopicAliasMaximum(n) in ps;
    }
    assert b.willDelay.Some? ==> WillDelay(b.willDelay.value) in ps;
    assert b.topicAliasMaximum.Some? ==> TopicAliasMaximum(b.topicAliasMaximum.value) in ps;
  }

  lemma LimitFields(b: Bag, ps: seq<Property>, receive: NonZeroU16, size: NonZeroU32)
    requires Describes(b, ps)
    ensures (forall n: NonZeroU16 :: ReceiveMaximum(n) in ps ==> receive == n)
      && ((forall n: NonZeroU16 :: ReceiveMaximum(n) !in ps) ==> receive == 65535)
      ==> OrElse(b.receiveMaximum, 65535) == receive
    ensures (forall n: NonZeroU32 :: MaximumPacketSize(n) in ps ==> size == n)
      && ((forall n: NonZeroU32 :: MaximumPacketSize(n) !in ps) ==> size == 4294967295)
      ==> OrElse(b.maximumPacketSize, 4294967295) == size
  {
    hide UsersIn, IdsIn;
    forall n: NonZeroU16
      ensures b.receiveMaximum == Some(n) <==> ReceiveMaximum(n) in ps
    {
      assert Holds(b, ReceiveMaximum(n)) <==> ReceiveMaximum(n) in ps;
    }
    forall n: NonZeroU32
      ensures b.maximumPacketSize == Some(n) <==> MaximumPacketSize(n) in ps
    {
      assert Holds(b, MaximumPacketSize(n)) <==> MaximumPacketSize(n) in ps;
    }
    assert b.receiveMaximum.Some? ==> ReceiveMaximum(b.receiveMaximum.value) in ps;
    assert b.maximumPacketSize.Some? ==> MaximumPacketSize(b.maximumPacketSize.value) in ps;
  }

  lemma ExpiryField(b: Bag, ps: seq<Property>, e: SessionExpiry)
    requires Describes(b, ps)
    requires (forall x :: Expiry(x) in ps ==> e == x) && ((forall x :: Expiry(x) !in ps) ==> e == Duration(0))
    ensures OrElse(b.sessionExpiry, Duration(0)) == e
  {
    hide UsersIn, IdsIn;
    forall x
      ensures b.sessionExpiry == Some(x) <==> Expiry(x) in ps
    {
      assert Holds(b, Expiry(x)) <==> Expiry(x) in ps;
    }
    assert b.sessionExpiry.Some? ==> Expiry(b.sessionExpiry.value) in ps;
  }

  lemma AuthenticationField(b: Bag, ps: seq<Property>, p: ConnectProperties)
    requires Describes(b, ps) && ConnectCarries(p, ps)
    ensures AuthenticationOf(b) == Success(p.authentication)
  {
    hide UsersIn, IdsIn;
    match p.authentication
    case None =>
      ControlTextFields(b, ps, None);
    case Some(a) =>
      assert Holds(b, AuthMethod(a.scheme)) <==> AuthMethod(a.scheme) in ps;
      ControlTextFields(b, ps, a.data);
  }

  lemma ConnectFromList(b: Bag, p: ConnectProperties, ps: seq<Property>)
    requires Describes(b, ps) && ConnectCarries(p, ps)
    ensures ConnectFromBag(b) == Success(p)
  {
    hide Holds, AuthenticationOf;
    AuthenticationField(b, ps, p);
    ExpiryField(b, ps, p.sessionExpiry);
    LimitFields(b, ps, p.receiveMaximum, p.maximumPacketSize);
    DefaultFields(b, ps, 0, p.topicAliasMaximum);
    FlagFields(b, ps);
  }

  // --- Whole packets, with their properties written out ---

  /** The body of a packet with `ps` as its properties, and `qs` as those of its will. */
  function BodyWith(p: Packet, ps: seq<Property>, qs: seq<Property>): Bytes
    requires Encodable(p)
  {
    match p
    case ConnectPacket(c) =>
      ConnectStart(c)
      + (Sized(AllBytes(ps))
      + (Str(OrElse(c.clientId, []))
      + (WillWith(c.will, qs) + (MaybeStr(c.username) + MaybeStr(c.password)))))
    case PublishPacket(m) =>
      Str(m.topic)
      + ((match m.delivery case Once => [] case Acked(id, _) => Word(id) case Assured(id, _) => Word(id))
      + (Sized(AllBytes(ps)) + m.payload))
    case PubAckPacket(a) => Word(a.id) + ([a.reason] + Sized(AllBytes(ps)))
    case SubscribePacket(s) => Word(s.id) + (Sized(AllBytes(ps)) + SubscriptionBytes(s.to))
    case DisconnectPacket(d) => [d.reason] + Sized(AllBytes(ps))
    case PingReqPacket => []
    case PingRespPacket => []
  }

  function WillWith(w: Option<Will>, qs: seq<Property>): Bytes {
    match w
    case None => []
    case Some(will) => Sized(AllBytes(qs)) + (Str(will.topic) + (if |will.payload| <= 65535 then Str(will.payload) else []))
  }

  /** The lists are acceptable and carry exactly the properties of the packet. */
  ghost predicate Carries(ok: Bytes -> bool, p: Packet, ps: seq<Property>, qs: seq<Property>) {
    && AllOnTheWire(ok, ps) && |AllBytes(ps)| < 268435456 && AllOnTheWire(ok, qs) && |AllBytes(qs)| < 268435456
    && match p
       case ConnectPacket(c) =>
         && ListOk(InConnect, ps) && ConnectCarries(c.properties, ps)
         && (c.will.Some? ==> ListOk(InWill, qs) && WillCarries(c.will.value, qs))
       case PublishPacket(m) => ListOk(InPublish, ps) && PublishCarries(m.properties, ps)
       case PubAckPacket(a) => ListOk(InPubAck, ps) && PubAckCarries(a.properties, ps)
       case SubscribePacket(s) => ListOk(InSubscribe, ps) && SubscribeCarries(s, ps)
       case DisconnectPacket(d) => ListOk(InDisconnect, ps) && DisconnectCarries(d.properties, ps)
       case PingReqPacket => true
       case PingRespPacket => true
  }

  lemma PublishWith(ok: Bytes -> bool, m: Publish, ps: seq<Property>)
    requires PublishOk(ok, m) && Carries(ok, PublishPacket(m), ps, [])
    ensures DecodePublish(ok, PublishFlags(m), BodyWith(PublishPacket(m), ps, [])) == Success((m, []))
  {
    hide DecodeList, GetTopic, GetDelivery, PublishFlags, AllBytes, AllOnTheWire, ListOk, PublishCarries, Describes, PublishFromBag, Sized;
    var list := Sized(AllBytes(ps));
    TopicBack(ok, m.topic, IdBytes(m.delivery) + (list + m.payload));
    DeliveryBack(m, list + m.payload);
    ListGathered(ok, InPublish, ps, m.payload);
    PublishFromList(DecodeList(ok, InPublish, list + m.payload).value.0, m.properties, ps);
  }

  lemma PubAckWith(ok: Bytes -> bool, a: PubAck, ps: seq<Property>)
    requires PubAckOk(ok, a) && Carries(ok, PubAckPacket(a), ps, [])
    ensures DecodePubAck(ok, BodyWith(PubAckPacket(a), ps, [])) == Success((a, []))
  {
    hide DecodeList, AllBytes, AllOnTheWire, ListOk, Describes, Holds, IsPubAckReason, Length;
    var list := Sized(AllBytes(ps));
    U16Back(a.id, [a.reason] + list);
    U8Back(a.reason, list);
    LengthIsThere(|AllBytes(ps)|);
    ListGathered(ok, InPubAck, ps, []);
    assert list + [] == list;
    DescribedParts(DecodeList(ok, InPubAck, list).value.0, ps);
    ControlTextFields(DecodeList(ok, InPubAck, list).value.0, ps, a.properties.reasonString);
  }

  lemma LengthIsThere(n: nat)
    requires n < 268435456
    ensures Length(n) != []
  {
  }

  lemma DescribedParts(b: Bag, ps: seq<Property>)
    requires Describes(b, ps)
    ensures b.users == UsersIn(ps) && b.subscriptionIds == IdsIn(ps)
  {
  }

  lemma DisconnectWith(ok: Bytes -> bool, d: Disconnect, ps: seq<Property>)
    requires DisconnectOk(ok, d) && Carries(ok, DisconnectPacket(d), ps, [])
    ensures DecodeDisconnect(ok, BodyWith(DisconnectPacket(d), ps, [])) == Success((d, []))
  {
    hide DecodeList, AllBytes, AllOnTheWire, ListOk, Describes, Holds, IsDisconnectReason, Length;
    var list := Sized(AllBytes(ps));
    U8Back(d.reason, list);
    LengthIsThere(|AllBytes(ps)|);
    ListGathered(ok, InDisconnect, ps, []);
    assert list + [] == list;
    var b := DecodeList(ok, InDisconnect, list).value.0;
    DescribedParts(b, ps);
    NumberFields(b, ps, None, None, d.properties.sessionExpiry);
    ControlTextFields(b, ps, d.properties.reasonString);
    ControlTextFields(b, ps, d.properties.serverReference);
  }

  lemma SubscribeWith(ok: Bytes -> bool, s: Subscribe, ps: seq<Property>)
    requires SubscribeOk(ok, s) && FiltersFit(s.to) && Carries(ok, SubscribePacket(s), ps, [])
    ensures DecodeSubscribe(ok, BodyWith(SubscribePacket(s), ps, [])) == Success((s, []))
  {
    hide DecodeList, AllBytes, AllOnTheWire, ListOk, Describes, Sized, SubscriptionBytes, TosOps, GetTos;
    var list, tos := Sized(AllBytes(ps)), SubscriptionBytes(s.to);
    U16Back(s.id, list + tos);
    ListGathered(ok, InSubscribe, ps, tos);
    DescribedParts(DecodeList(ok, InSubscribe, list + tos).value.0, ps);
    SubscriptionsLaidOut(s.to);
    TosBack(ok, s.to);
  }

  lemma WillWithBack(ok: Bytes -> bool, c: Connect, qs: seq<Property>, rest: Bytes)
    requires c.will.Some? ==>
      && WillOk(ok, c.will.value) && ListOk(InWill, qs) && WillCarries(c.will.value, qs)
      && AllOnTheWire(ok, qs) && |AllBytes(qs)| < 268435456
    ensures GetWill(ok, ConnectFlags(c), WillWith(c.will, qs) + rest) == Success((c.will, rest))
  {
    hide DecodeList, ConnectFlags, Bit, GetTopic, GetBinary, QoSFrom, AllBytes, AllOnTheWire, ListOk, Describes, Sized, Str, TextBytes;
    ConnectFlagsBack(c);
    if c.will.None? {
      assert [] + rest == rest;
    } else {
      var w := c.will.value;
      StrLaidOut(w.topic);
      StrLaidOut(w.payload);
      var list := Sized(AllBytes(qs));
      var t := TextBytes(w.payload) + rest;
      var s := TextBytes(w.topic) + t;
      assert WillWith(c.will, qs) + rest == list + s;
      ListGathered(ok, InWill, qs, s);
      WillFromList(DecodeList(ok, InWill, list + s).value.0, w, qs);
      TopicBack(ok, w.topic, t);
      BinaryBack(w.payload, rest);
    }
  }

  lemma WillFromList(b: Bag, w: Will, qs: seq<Property>)
    requires Describes(b, qs) && WillCarries(w, qs)
    ensures w.delay == OrElse(b.willDelay, 0)
    ensures w.properties == WillProperties(OrElse(b.payloadIsUtf8, false), b.messageExpiry, b.responseTopic,
      b.correlationData, b.users, b.contentType)
  {
    hide Holds;
    FlagFields(b, qs);
    NumberFields(b, qs, w.properties.messageExpiry, None, None);
    DefaultFields(b, qs, w.delay, 0);
    TextFields(b, qs, w.properties.contentType);
    TextFields(b, qs, w.properties.responseTopic);
    TextFields(b, qs, w.properties.correlationData);
  }

  lemma ConnectWith(ok: Bytes -> bool, c: Connect, ps: seq<Property>, qs: seq<Property>)
    requires ConnectOk(ok, c) && Carries(ok, ConnectPacket(c), ps, qs)
    ensures DecodeConnect(ok, BodyWith(ConnectPacket(c), ps, qs)) == Success((c, []))
  {
    hide DecodeList, ConnectFlags, Bit, ConnectHeader, ConnectStart, GetConnectHeader, GetText, GetWill, GetOptionalText, GetOptionalBinary;
    hide OptionalText, MaybeStr, TextBytes, Str, ConnectFromBag, WillWith, AllBytes, AllOnTheWire;
    hide ListOk, ConnectCarries, WillCarries, Describes, Sized;
    ConnectFlagsBack(c);
    ConnectHeaderLaidOut(c);
    var id: Text := OrElse(c.clientId, []);
    StrLaidOut(id);
    MaybeStrLaidOut(c.username);
    MaybeStrLaidOut(c.password);
    var x5 := MaybeStr(c.password);
    var x4 := MaybeStr(c.username) + x5;
    var x3 := WillWith(c.will, qs) + x4;
    var x2 := TextBytes(id) + x3;
    var x1 := Sized(AllBytes(ps)) + x2;
    ConnectHeaderBack(ok, c, x1);
    ListGathered(ok, InConnect, ps, x2);
    ConnectFromList(DecodeList(ok, InConnect, x1).value.0, c.properties, ps);
    TextBack(ok, id, x3);
    WillWithBack(ok, c, qs, x4);
    OptionalTextBack(ok, c.username, x5);
    OptionalTextBack(ok, c.password, []);
    assert x5 + [] == x5;
    assert KeepAliveFromU16(KeepAliveToU16(c.keepAlive)) == c.keepAlive;
  }

  lemma BodyWithBack(ok: Bytes -> bool, p: Packet, ps: seq<Property>, qs: seq<Property>)
    requires PacketOk(ok, p) && Encodable(p) && Carries(ok, p, ps, qs)
    ensures DecodePacket(ok, FirstByte(p), BodyWith(p, ps, qs)) == Success(p)
  {
    hide DecodeConnect, DecodePublish, DecodePubAck, DecodeSubscribe, DecodeDisconnect, PublishFlags;
    hide ConnectOk, PublishOk, PubAckOk, SubscribeOk, DisconnectOk, Carries;
    match p
    case ConnectPacket(c) => ConnectWith(ok, c, ps, qs);
    case PublishPacket(m) => CarriesAlone(ok, p, ps, qs); PublishWith(ok, m, ps);
    case PubAckPacket(a) => CarriesAlone(ok, p, ps, qs); PubAckWith(ok, a, ps);
    case SubscribePacket(s) => CarriesAlone(ok, p, ps, qs); SubscribeWith(ok, s, ps);
    case DisconnectPacket(d) => CarriesAlone(ok, p, ps, qs); DisconnectWith(ok, d, ps);
    case PingReqPacket =>
    case PingRespPacket =>
  }

  lemma CarriesAlone(ok: Bytes -> bool, p: Packet, ps: seq<Property>, qs: seq<Property>)
    requires Carries(ok, p, ps, qs) && !p.ConnectPacket? && Encodable(p)
    ensures Carries(ok, p, ps, []) && BodyWith(p, ps, qs) == BodyWith(p, ps, [])
  {
  }

  /**
   * A packet whose properties are written out in any order, those at their defaults too, is decoded to the record with
   * exactly the values that were written.
   */
  lemma WrittenOutIsDecoded(ok: Bytes -> bool, p: Packet, ps: seq<Property>, qs: seq<Property>)
    requires PacketOk(ok, p) && Encodable(p) && Carries(ok, p, ps, qs) && |BodyWith(p, ps, qs)| < 268435456
    ensures DecodeFull(ok, [First(p)] + Sized(BodyWith(p, ps, qs))) == Success(p)
  {
    hide PacketOk, Carries, BodyWith, DecodePacket, FixedHeader, First, FirstByte;
    var body := BodyWith(p, ps, qs);
    BodyWithBack(ok, p, ps, qs);
    FirstLaidOut(p);
    LengthLaidOut(|body|);
    HeaderOf(First(p), body, []);
    var n := Length(|body|);
    var src := [First(p)] + (n + body);
    assert [First(p)] + (n + body) + [] == src;
    assert src[1 + |n|..] == body;
  }

  lemma FirstLaidOut(p: Packet)
    ensures FirstByte(p) == First(p)
  {
  }
}
