/**
 * Whole property lists: `decode_all`, `encode_all` and the two macros that gather a list into, and spread a list
 * out of, the property records of a packet (`src/mqtt_proto/property.rs`).
 */
module PropertyLists {
  import opened Wrappers
  import opened Bytes
  import opened Packets
  import opened Wire
  import opened Properties
  import TopicFilter
  import Varint

  /** The lists that the modelled packets carry. */
  datatype Owner = InConnect | InWill | InPublish | InSubscribe | InDisconnect | InPubAck

  /** Everything gathered from a list so far. */
  datatype Bag = Bag(
    payloadIsUtf8: Option<bool>,
    messageExpiry: Option<u32>,
    contentType: Option<Text>,
    responseTopic: Option<Text>,
    correlationData: Option<Text>,
    sessionExpiry: Option<SessionExpiry>,
    authMethod: Option<Text>,
    authData: Option<Text>,
    requestProblem: Option<bool>,
    willDelay: Option<u32>,
    requestResponse: Option<bool>,
    serverReference: Option<Text>,
    reasonString: Option<Text>,
    receiveMaximum: Option<NonZeroU16>,
    topicAliasMaximum: Option<u16>,
    topicAlias: Option<NonZeroU16>,
    maximumPacketSize: Option<NonZeroU32>,
    subscriptionIds: seq<NonZeroU32>,
    users: seq<UserProperty>)

  const EMPTY := Bag(None, None, None, None, None, None, None, None, None, None, None, None, None, None, None, None, None, [], [])

  predicate Allows(owner: Owner, p: Property) {
    match owner
    case InConnect =>
      || p.Expiry? || p.ReceiveMaximum? || p.MaximumPacketSize? || p.TopicAliasMaximum? || p.RequestResponse?
      || p.RequestProblem? || p.User? || p.AuthMethod? || p.AuthData?
    case InWill =>
      || p.WillDelay? || p.PayloadIsUtf8? || p.MessageExpiry? || p.ContentType? || p.ResponseTopic?
      || p.CorrelationData? || p.User?
    case InPublish =>
      || p.PayloadIsUtf8? || p.MessageExpiry? || p.TopicAlias? || p.ResponseTopic? || p.CorrelationData?
      || p.User? || p.SubscriptionId? || p.ContentType?
    case InSubscribe => p.SubscriptionId? || p.User?
    case InDisconnect => p.Expiry? || p.ReasonString? || p.User? || p.ServerReference?
    case InPubAck => p.ReasonString? || p.User?
  }

  /** Whether a second occurrence of this property is an error. */
  predicate Occupied(owner: Owner, bag: Bag, p: Property) {
    match p
    case PayloadIsUtf8(_) => bag.payloadIsUtf8.Some?
    case MessageExpiry(_) => bag.messageExpiry.Some?
    case ContentType(_) => bag.contentType.Some?
    case ResponseTopic(_) => bag.responseTopic.Some?
    case CorrelationData(_) => bag.correlationData.Some?
    case Expiry(_) => bag.sessionExpiry.Some?
    case AuthMethod(_) => bag.authMethod.Some?
    case AuthData(_) => bag.authData.Some?
    case RequestProblem(_) => bag.requestProblem.Some?
    case WillDelay(_) => bag.willDelay.Some?
    case RequestResponse(_) => bag.requestResponse.Some?
    case ServerReference(_) => bag.serverReference.Some?
    case ReasonString(_) => bag.reasonString.Some?
    case ReceiveMaximum(_) => bag.receiveMaximum.Some?
    case TopicAliasMaximum(_) => bag.topicAliasMaximum.Some?
    case TopicAlias(_) => bag.topicAlias.Some?
    case MaximumPacketSize(_) => bag.maximumPacketSize.Some?
    case SubscriptionId(_) => owner.InSubscribe? && bag.subscriptionIds != []
    case _ => false
  }

  function Store(bag: Bag, p: Property): Bag {
    match p
    case PayloadIsUtf8(v) => bag.(payloadIsUtf8 := Some(v))
    case MessageExpiry(v) => bag.(messageExpiry := Some(v))
    case ContentType(v) => bag.(contentType := Some(v))
    case ResponseTopic(v) => bag.(responseTopic := Some(v))
    case CorrelationData(v) => bag.(correlationData := Some(v))
    case Expiry(v) => bag.(sessionExpiry := Some(v))
    case AuthMethod(v) => bag.(authMethod := Some(v))
    case AuthData(v) => bag.(authData := Some(v))
    case RequestProblem(v) => bag.(requestProblem := Some(v))
    case WillDelay(v) => bag.(willDelay := Some(v))
    case RequestResponse(v) => bag.(requestResponse := Some(v))
    case ServerReference(v) => bag.(serverReference := Some(v))
    case ReasonString(v) => bag.(reasonString := Some(v))
    case ReceiveMaximum(v) => bag.(receiveMaximum := Some(v))
    case TopicAliasMaximum(v) => bag.(topicAliasMaximum := Some(v))
    case TopicAlias(v) => bag.(topicAlias := Some(v))
    case MaximumPacketSize(v) => bag.(maximumPacketSize := Some(v))
    case SubscriptionId(v) => bag.(subscriptionIds := bag.subscriptionIds + [v])
    case User(v) => bag.(users := bag.users + [v])
    case _ => bag
  }

  /** One turn of the gathering loop. */
  function Gather(owner: Owner, bag: Bag, p: Property): (r: Result<Bag, DecodeError>) {
    if !Allows(owner, p) then Failure(UnexpectedProperty)
    else if Occupied(owner, bag, p) then Failure(DuplicateProperty)
    else Success(Store(bag, p))
  }

  function DecodeInto(ok: Bytes -> bool, owner: Owner, src: Bytes, bag: Bag): (r: Result<Bag, DecodeError>)
    decreases |src|
  {
    if src == [] then Success(bag)
    else
      var (p, rest) :- DecodeOne(ok, src);
      var more :- Gather(owner, bag, p);
      DecodeInto(ok, owner, rest, more)
  }

  /** `decode_properties!`: a length prefix, then exactly that many bytes of properties. */
  function DecodeList(ok: Bytes -> bool, owner: Owner, src: Bytes): (r: Read<Bag>)
    ensures r.Success? ==> |r.value.1| < |src|
  {
    var (n, s) :- GetVarint(src);
    if |s| < n then Failure(IncompletePacket)
    else
      var bag :- DecodeInto(ok, owner, s[..n], EMPTY);
      Success((bag, s[n..]))
  }

  function EncodeEach(ps: seq<Property>): Encoded {
    if ps == [] then Success([])
    else
      var first :- EncodeOne(ps[0]);
      var rest :- EncodeEach(ps[1..]);
      Success(first + rest)
  }

  /** `encode_all`: a first pass counts, the count is written, a second pass writes. */
  function EncodeList(ps: seq<Property>): Encoded {
    var ops :- EncodeEach(ps);
    match Varint.Encode(|OpsBytes(ops)|)
    case None => Failure(RemainingLengthTooHigh)
    case Some(b) => Success([Put(b)] + ops)
  }

  // --- A list comes back as the bag of its properties ---

  /** Gathering a list directly, without going through bytes; defaults are not on the wire. */
  function GatherAll(owner: Owner, bag: Bag, ps: seq<Property>): Result<Bag, DecodeError>
    decreases |ps|
  {
    if ps == [] then Success(bag)
    else if IsDefault(ps[0]) then GatherAll(owner, bag, ps[1..])
    else
      var more :- Gather(owner, bag, OnWire(ps[0]));
      GatherAll(owner, more, ps[1..])
  }

  predicate AllWellFormed(ok: Bytes -> bool, ps: seq<Property>) {
    forall i :: 0 <= i < |ps| ==> WellFormed(ok, ps[i])
  }

  function TotalSize(ps: seq<Property>): nat {
    if ps == [] then 0 else Size(ps[0]) + TotalSize(ps[1..])
  }

  lemma {:induction false} EachBack(ok: Bytes -> bool, owner: Owner, bag: Bag, ps: seq<Property>)
    requires AllWellFormed(ok, ps)
    ensures EncodeEach(ps).Success?
    ensures |OpsBytes(EncodeEach(ps).value)| == TotalSize(ps)
    ensures DecodeInto(ok, owner, OpsBytes(EncodeEach(ps).value), bag) == GatherAll(owner, bag, ps)
    decreases |ps|
  {
    if ps != [] {
      var p, tail := ps[0], ps[1..];
      EachBack(ok, owner, bag, tail);
      var rest := EncodeEach(tail).value;
      if IsDefault(p) {
        assert [] + rest == rest;
      } else {
        OneBack(ok, p, OpsBytes(rest));
        OpsConcat(EncodeOne(p).value, rest);
        var more := Gather(owner, bag, OnWire(p));
        if more.Success? {
          EachBack(ok, owner, more.value, tail);
        }
      }
    }
  }

  lemma EncodeListForm(ok: Bytes -> bool, ps: seq<Property>)
    requires AllWellFormed(ok, ps)
    ensures EncodeEach(ps).Success? && |OpsBytes(EncodeEach(ps).value)| == TotalSize(ps)
    ensures EncodeList(ps).Success? <==> TotalSize(ps) < Varint.LIMIT
    ensures EncodeList(ps).Success? ==>
      OpsBytes(EncodeList(ps).value) == Varint.Encode(TotalSize(ps)).value + OpsBytes(EncodeEach(ps).value)
  {
    EachBack(ok, InConnect, EMPTY, ps);
    if TotalSize(ps) < Varint.LIMIT {
      var b := Varint.Encode(TotalSize(ps)).value;
      OpsConcat([Put(b)], EncodeEach(ps).value);
      OneOp(Put(b));
    }
  }

  lemma DecodeListOf(ok: Bytes -> bool, owner: Owner, body: Bytes, rest: Bytes)
    requires |body| < Varint.LIMIT
    ensures DecodeList(ok, owner, Varint.Encode(|body|).value + body + rest) ==
      match DecodeInto(ok, owner, body, EMPTY)
      case Success(bag) => Success((bag, rest))
      case Failure(e) => Failure(e)
  {
    var b := Varint.Encode(|body|).value;
    assert b + body + rest == b + (body + rest);
    VarintBack(|body|, body + rest);
    assert (body + rest)[..|body|] == body && (body + rest)[|body|..] == rest;
  }

  /** The whole list, with its length prefix, comes back and nothing after it is touched. */
  lemma ListBack(ok: Bytes -> bool, owner: Owner, ps: seq<Property>, rest: Bytes)
    requires AllWellFormed(ok, ps) && TotalSize(ps) < Varint.LIMIT
    ensures EncodeList(ps).Success?
    ensures |OpsBytes(EncodeList(ps).value)| == |Varint.Digits(TotalSize(ps))| + TotalSize(ps)
    ensures DecodeList(ok, owner, OpsBytes(EncodeList(ps).value) + rest) ==
      match GatherAll(owner, EMPTY, ps)
      case Success(bag) => Success((bag, rest))
      case Failure(e) => Failure(e)
  {
    EncodeListForm(ok, ps);
    EachBack(ok, owner, EMPTY, ps);
    DecodeListOf(ok, owner, OpsBytes(EncodeEach(ps).value), rest);
  }

  // --- A decoded bag is well-formed and no larger than its list ---

  predicate OptText(ok: Bytes -> bool, t: Option<Text>) {
    t.Some? ==> ok(t.value)
  }

  predicate OptTopic(ok: Bytes -> bool, t: Option<Text>) {
    t.Some? ==> TopicFilter.ValidTopic(ok, t.value)
  }

  predicate OptExpiry(e: Option<SessionExpiry>) {
    e.Some? ==> WellFormedExpiry(e.value)
  }

  predicate UsersOk(ok: Bytes -> bool, users: seq<UserProperty>) {
    forall i :: 0 <= i < |users| ==> WellFormedUser(ok, users[i])
  }

  predicate SubscriptionIdsOk(ids: seq<NonZeroU32>) {
    forall i :: 0 <= i < |ids| ==> ids[i] < Varint.LIMIT
  }

  predicate WellFormedBag(ok: Bytes -> bool, b: Bag) {
    && OptText(ok, b.contentType) && OptTopic(ok, b.responseTopic) && OptExpiry(b.sessionExpiry)
    && OptText(ok, b.authMethod) && OptText(ok, b.serverReference) && OptText(ok, b.reasonString)
    && UsersOk(ok, b.users) && SubscriptionIdsOk(b.subscriptionIds)
  }

  function TextWeight(t: Option<Text>): nat {
    if t.Some? then 3 + |t.value| else 0
  }

  function FixedWeight<T>(o: Option<T>, n: nat): nat {
    if o.Some? then n else 0
  }

  function UserWeight(u: UserProperty): nat {
    5 + |u.name| + |u.value|
  }

  function UsersWeight(users: seq<UserProperty>): nat {
    if users == [] then 0 else UsersWeight(users[..|users| - 1]) + UserWeight(users[|users| - 1])
  }

  function IdWeight(id: NonZeroU32): nat {
    1 + |Varint.Digits(id)|
  }

  function IdsWeight(ids: seq<NonZeroU32>): nat {
    if ids == [] then 0 else IdsWeight(ids[..|ids| - 1]) + IdWeight(ids[|ids| - 1])
  }

  /** `n` bytes for a property that is present and not at its default. */
  function DefaultedWeight<T(==)>(o: Option<T>, default: T, n: nat): nat {
    if o.Some? && o.value != default then n else 0
  }

  function TextsWeight(b: Bag): nat {
    TextWeight(b.contentType) + TextWeight(b.responseTopic) + TextWeight(b.correlationData)
    + TextWeight(b.authMethod) + TextWeight(b.authData) + TextWeight(b.serverReference) + TextWeight(b.reasonString)
  }

  function ValuesWeight(b: Bag): nat {
    FixedWeight(b.messageExpiry, 5) + FixedWeight(b.sessionExpiry, 5) + FixedWeight(b.topicAlias, 3)
    + DefaultedWeight(b.payloadIsUtf8, false, 2) + DefaultedWeight(b.requestProblem, true, 2)
    + DefaultedWeight(b.willDelay, 0, 5) + DefaultedWeight(b.requestResponse, false, 2)
    + DefaultedWeight(b.receiveMaximum, 0xFFFF, 3) + DefaultedWeight(b.topicAliasMaximum, 0, 3)
    + DefaultedWeight(b.maximumPacketSize, 0xFFFF_FFFF, 5)
  }

  /** What the gathered properties would take on the wire. */
  function Weight(b: Bag): nat {
    TextsWeight(b) + ValuesWeight(b) + IdsWeight(b.subscriptionIds) + UsersWeight(b.users)
  }

  predicate IsText(p: Property) {
    || p.ContentType? || p.ResponseTopic? || p.CorrelationData? || p.AuthMethod? || p.AuthData?
    || p.ServerReference? || p.ReasonString?
  }

  lemma StoreText(bag: Bag, p: Property)
    requires IsText(p)
    ensures TextsWeight(Store(bag, p)) <= TextsWeight(bag) + Size(p)
  {
  }

  lemma StoreValue(bag: Bag, p: Property)
    requires !IsText(p) && !p.User? && !p.SubscriptionId? && !p.ConnectSessionExpiry?
    ensures ValuesWeight(Store(bag, p)) <= ValuesWeight(bag) + Size(p)
  {
  }

  lemma StoreOnlyThere(bag: Bag, p: Property)
    ensures !IsText(p) ==> TextsWeight(Store(bag, p)) == TextsWeight(bag)
    ensures !p.User? ==> Store(bag, p).users == bag.users
    ensures !p.SubscriptionId? ==> Store(bag, p).subscriptionIds == bag.subscriptionIds
  {
  }

  lemma StoreNoValue(bag: Bag, p: Property)
    requires IsText(p) || p.User? || p.SubscriptionId?
    ensures ValuesWeight(Store(bag, p)) == ValuesWeight(bag)
  {
  }

  lemma StoreWeight(bag: Bag, p: Property)
    requires !p.ConnectSessionExpiry?
    ensures Weight(Store(bag, p)) <= Weight(bag) + Size(p)
  {
    hide TextsWeight, ValuesWeight;
    var more := Store(bag, p);
    StoreOnlyThere(bag, p);
    if IsText(p) || p.User? || p.SubscriptionId? {
      StoreNoValue(bag, p);
    }
    if IsText(p) {
      StoreText(bag, p);
    } else if p.User? {
      assert more.users[..|more.users| - 1] == bag.users;
    } else if p.SubscriptionId? {
      assert more.subscriptionIds[..|more.subscriptionIds| - 1] == bag.subscriptionIds;
    } else {
      StoreValue(bag, p);
    }
  }

  lemma StoreIsWellFormed(ok: Bytes -> bool, bag: Bag, p: Property)
    requires WellFormedBag(ok, bag) && WellFormed(ok, p)
    ensures WellFormedBag(ok, Store(bag, p))
  {
    match p
    case User(_) =>
    case SubscriptionId(_) =>
    case _ =>
  }

  lemma {:induction false} DecodeIntoKeeps(ok: Bytes -> bool, owner: Owner, src: Bytes, bag: Bag)
    requires WellFormedBag(ok, bag)
    ensures var r := DecodeInto(ok, owner, src, bag);
      r.Success? ==> WellFormedBag(ok, r.value) && Weight(r.value) <= Weight(bag) + |src|
    decreases |src|
  {
    if src != [] {
      var one := DecodeOne(ok, src);
      if one.Success? {
        DecodedIsWellFormed(ok, src);
        var (p, rest) := one.value;
        if Gather(owner, bag, p).Success? {
          StoreIsWellFormed(ok, bag, p);
          StoreWeight(bag, p);
          DecodeIntoKeeps(ok, owner, rest, Gather(owner, bag, p).value);
        }
      }
    }
  }

  lemma DecodedListKeeps(ok: Bytes -> bool, owner: Owner, src: Bytes)
    ensures var r := DecodeList(ok, owner, src);
      r.Success? ==>
        && WellFormedBag(ok, r.value.0)
        && Weight(r.value.0) < Varint.LIMIT
        && |src| >= |Varint.Digits(Weight(r.value.0))| + Weight(r.value.0) + |r.value.1|
  {
    var r := DecodeList(ok, owner, src);
    if r.Success? {
      var (n, s) := GetVarint(src).value;
      assert Weight(EMPTY) == 0;
      DecodeIntoKeeps(ok, owner, s[..n], EMPTY);
      Varint.LengthIsMonotone(Weight(r.value.0), n);
    }
  }

  // --- Spreading records into lists ---

  function UserList(users: seq<UserProperty>): (ps: seq<Property>)
    ensures |ps| == |users|
    ensures forall i :: 0 <= i < |ps| ==> ps[i] == User(users[i])
  {
    seq(|users|, i requires 0 <= i < |users| => User(users[i]))
  }

  function IdList(ids: seq<NonZeroU32>): (ps: seq<Property>)
    ensures |ps| == |ids|
    ensures forall i :: 0 <= i < |ps| ==> ps[i] == SubscriptionId(ids[i])
  {
    seq(|ids|, i requires 0 <= i < |ids| => SubscriptionId(ids[i]))
  }

  function MaybeExpiry(o: Option<SessionExpiry>): seq<Property> {
    if o.Some? then [Expiry(o.value)] else []
  }

  function MaybeReasonString(o: Option<Text>): seq<Property> {
    if o.Some? then [ReasonString(o.value)] else []
  }

  function MaybeServerReference(o: Option<Text>): seq<Property> {
    if o.Some? then [ServerReference(o.value)] else []
  }

  function MaybeMessageExpiry(o: Option<u32>): seq<Property> {
    if o.Some? then [MessageExpiry(o.value)] else []
  }

  function MaybeTopicAlias(o: Option<NonZeroU16>): seq<Property> {
    if o.Some? then [TopicAlias(o.value)] else []
  }

  function MaybeResponseTopic(o: Option<Text>): seq<Property> {
    if o.Some? then [ResponseTopic(o.value)] else []
  }

  function MaybeCorrelationData(o: Option<Text>): seq<Property> {
    if o.Some? then [CorrelationData(o.value)] else []
  }

  function MaybeContentType(o: Option<Text>): seq<Property> {
    if o.Some? then [ContentType(o.value)] else []
  }

  function MaybeSubscriptionId(o: Option<NonZeroU32>): seq<Property> {
    if o.Some? then [SubscriptionId(o.value)] else []
  }

  function MaybeAuthMethod(o: Option<Text>): seq<Property> {
    if o.Some? then [AuthMethod(o.value)] else []
  }

  function MaybeAuthData(o: Option<Text>): seq<Property> {
    if o.Some? then [AuthData(o.value)] else []
  }

  lemma {:induction false} GatherConcat(owner: Owner, bag: Bag, a: seq<Property>, b: seq<Property>)
    ensures GatherAll(owner, bag, a + b) ==
      match GatherAll(owner, bag, a)
      case Success(more) => GatherAll(owner, more, b)
      case Failure(e) => Failure(e)
    decreases |a|
  {
    if a == [] {
      assert a + b == b;
    } else {
      assert (a + b)[1..] == a[1..] + b;
      if IsDefault(a[0]) {
        GatherConcat(owner, bag, a[1..], b);
      } else {
        var more := Gather(owner, bag, OnWire(a[0]));
        if more.Success? {
          GatherConcat(owner, more.value, a[1..], b);
        }
      }
    }
  }

  lemma GatherUser(owner: Owner, bag: Bag, u: UserProperty)
    ensures !IsDefault(User(u)) && OnWire(User(u)) == User(u)
    ensures Gather(owner, bag, User(u)) == Success(bag.(users := bag.users + [u]))
  {
  }

  lemma GatherFirstUser(owner: Owner, bag: Bag, users: seq<UserProperty>)
    requires users != []
    ensures GatherAll(owner, bag, UserList(users)) == GatherAll(owner, bag.(users := bag.users + [users[0]]), UserList(users[1..]))
  {
    hide Gather, IsDefault, OnWire;
    assert UserList(users)[0] == User(users[0]) && UserList(users)[1..] == UserList(users[1..]);
    GatherUser(owner, bag, users[0]);
  }

  lemma {:induction false} GatherUsers(owner: Owner, bag: Bag, users: seq<UserProperty>)
    ensures GatherAll(owner, bag, UserList(users)) == Success(bag.(users := bag.users + users))
    decreases |users|
  {
    if users == [] {
      assert bag.users + users == bag.users;
    } else {
      hide GatherAll, UserList;
      var more := bag.(users := bag.users + [users[0]]);
      GatherFirstUser(owner, bag, users);
      GatherUsers(owner, more, users[1..]);
      assert more.users + users[1..] == bag.users + users;
    }
  }

  lemma {:induction false} GatherIds(bag: Bag, ids: seq<NonZeroU32>)
    ensures GatherAll(InPublish, bag, IdList(ids)) == Success(bag.(subscriptionIds := bag.subscriptionIds + ids))
    decreases |ids|
  {
    if ids == [] {
      assert bag.subscriptionIds + ids == bag.subscriptionIds;
    } else {
      var more := Store(bag, SubscriptionId(ids[0]));
      assert IdList(ids)[1..] == IdList(ids[1..]);
      GatherIds(more, ids[1..]);
      assert more.subscriptionIds + ids[1..] == bag.subscriptionIds + ids;
    }
  }

  /** Gathering at most one property, into a bag that has room for it, and then the rest. */
  lemma GatherFirst(owner: Owner, bag: Bag, first: seq<Property>, rest: seq<Property>)
    requires |first| <= 1
    requires first != [] && !IsDefault(first[0]) ==> Gather(owner, bag, OnWire(first[0])).Success?
    ensures GatherAll(owner, bag, first + rest) ==
      GatherAll(owner, if first != [] && !IsDefault(first[0]) then Store(bag, OnWire(first[0])) else bag, rest)
  {
    GatherConcat(owner, bag, first, rest);
    if first != [] {
      assert first[1..] == [];
    }
  }

  lemma {:induction false} SizeConcat(a: seq<Property>, b: seq<Property>)
    ensures TotalSize(a + b) == TotalSize(a) + TotalSize(b)
  {
    if a == [] {
      assert a + b == b;
    } else {
      assert (a + b)[1..] == a[1..] + b;
      SizeConcat(a[1..], b);
    }
  }

  lemma {:induction false} UsersSize(users: seq<UserProperty>)
    ensures TotalSize(UserList(users)) == UsersWeight(users)
  {
    if users != [] {
      var n := |users| - 1;
      UsersSize(users[..n]);
      var last := [User(users[n])];
      assert UserList(users) == UserList(users[..n]) + last;
      SizeConcat(UserList(users[..n]), last);
      assert TotalSize(last) == Size(last[0]) + TotalSize(last[1..]);
      assert Size(User(users[n])) == UserWeight(users[n]);
    }
  }

  lemma {:induction false} IdsSize(ids: seq<NonZeroU32>)
    ensures TotalSize(IdList(ids)) == IdsWeight(ids)
  {
    if ids != [] {
      var n := |ids| - 1;
      IdsSize(ids[..n]);
      var last := [SubscriptionId(ids[n])];
      assert IdList(ids) == IdList(ids[..n]) + last;
      SizeConcat(IdList(ids[..n]), last);
      assert TotalSize(last) == Size(last[0]) + TotalSize(last[1..]);
      assert Size(SubscriptionId(ids[n])) == IdWeight(ids[n]);
    }
  }

  lemma SizeFirst(first: seq<Property>, rest: seq<Property>)
    requires |first| <= 1
    ensures TotalSize(first + rest) == (if first == [] then 0 else Size(first[0])) + TotalSize(rest)
  {
    SizeConcat(first, rest);
    if first != [] {
      assert first[1..] == [];
    }
  }
}
