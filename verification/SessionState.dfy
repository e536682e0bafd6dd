/**
 * The MQTT session as a value, and what each operation of `src/client/session.rs` does to it.
 *
 * Channels are FIFO sequences. A completion notifier is a number; only those of QoS 1 publishes leave a notice when
 * they are resolved. An operation that would panic says so in its outcome.
 */
module SessionState {
  import opened Wrappers
  import opened Bytes
  import opened Packets
  import opened PkidPool
  import opened OrderedMap
  import TopicFilter

  // --- Requests of the application ---

  datatype PublishRequest = PublishRequest(notifier: nat, topic: Text, payload: Bytes, retain: bool, properties: PublishProperties)

  datatype SubscriptionRequest =
    | ToSubscribe(notifier: nat, to: SubscribeTo, subscriptionId: Option<NonZeroU32>, users: seq<UserProperty>)
    | ToUnsubscribe(notifier: nat, filter: TopicFilter.Filter, users: seq<UserProperty>)

  /** The answer given through a token, for the connection on which the token was issued. */
  datatype AckRequest = AckRequest(notifier: nat, puback: PubAck, epoch: nat)

  datatype AuthReason = AuthSuccess | ContinueAuthentication | ReAuthenticate
  datatype Auth = Auth(reason: AuthReason, authentication: Option<Authentication>)
  datatype AuthRequest = AuthRequest(notifier: nat, authentication: Authentication)

  /** The one-shot channel of the disconnect handle. */
  datatype DisconnectChannel = NoChannel | Waiting | Requested(disconnect: Disconnect) | SenderDropped

  datatype Channels = Channels(
    disconnect: DisconnectChannel,
    acks: seq<AckRequest>,
    auths: seq<AuthRequest>,
    pings: seq<nat>,
    subs: seq<SubscriptionRequest>,
    pub0: seq<PublishRequest>,
    pub1: seq<PublishRequest>)

  // --- The session ---

  datatype Sent = Sent(publish: Publish, notifier: nat)

  datatype Inflight = Inflight(
    publishes: seq<Entry<Sent>>,
    replay: seq<Publish>,
    subscribes: map<PacketId, nat>,
    unsubscribes: map<PacketId, nat>,
    auth: Option<(Text, nat)>,
    pings: seq<Option<nat>>)

  datatype Link = Link(connected: bool, epoch: nat, expiry: SessionExpiry, keepAlive: KeepAlive)

  datatype Resolution = Completed(puback: PubAck) | Cancelled
  datatype Notice = Notice(notifier: nat, resolution: Resolution)

  /** `None` is not ready; `Some` is the acknowledgement that waits for its turn. */
  type Tracker = seq<Entry<Option<AckRequest>>>

  /** `issued` counts the tokens handed to the application, and so names them. */
  datatype State = State(
    ch: Channels,
    pool: Pool,
    inflight: Inflight,
    tracker: Tracker,
    link: Link,
    notices: seq<Notice>,
    issued: nat)

  const NO_REQUESTS := Channels(NoChannel, [], [], [], [], [], [])
  const NOTHING_INFLIGHT := Inflight([], [], map[], map[], None, [])

  function NewSession(max: PacketId): State {
    State(NO_REQUESTS, Pool(max, 1, {}), NOTHING_INFLIGHT, [], Link(false, 0, Duration(0), Off), [], 0)
  }

  datatype Outgoing =
    | Control(packet: Packet)
    | Unsubscribe(id: PacketId, filter: TopicFilter.Filter, users: seq<UserProperty>)
    | Authenticate(authentication: Authentication)

  function WithDup(p: Publish): Publish {
    match p.delivery
    case Once => p
    case Acked(id, _) => p.(delivery := Acked(id, true))
    case Assured(id, _) => p.(delivery := Assured(id, true))
  }

  function ToPublish(r: PublishRequest, delivery: Delivery): Publish {
    Publish(r.topic, delivery, r.retain, r.payload, r.properties)
  }

  // --- The next packet ---

  datatype Request =
    | ToDisconnect(disconnect: Disconnect)
    | ToAcknowledge(ack: AckRequest)
    | ToReauthenticate(auth: AuthRequest)
    | ToPing(notifier: Option<nat>)
    | Subscription(sub: SubscriptionRequest, id: PacketId)
    | PublishOnce(publish: PublishRequest)
    | PublishAcked(publish: PublishRequest, id: PacketId)

  /** `poll_for_outgoing_request`, once it is known that no disconnect and no acknowledgement is waiting. */
  function PollRest(ch: Channels, pool: Pool, due: bool): (Channels, Pool, Option<Request>)
  {
    if ch.auths != [] then (ch.(auths := ch.auths[1..]), pool, Some(ToReauthenticate(ch.auths[0])))
    else if ch.pings != [] then (ch.(pings := ch.pings[1..]), pool, Some(ToPing(Some(ch.pings[0]))))
    else
      var (leased, id) := Lease(pool);
      if ch.subs != [] && id.Some? then (ch.(subs := ch.subs[1..]), leased, Some(Subscription(ch.subs[0], id.value)))
      else if ch.pub0 != [] then (ch.(pub0 := ch.pub0[1..]), pool, Some(PublishOnce(ch.pub0[0])))
      else if ch.pub1 != [] && id.Some? then (ch.(pub1 := ch.pub1[1..]), leased, Some(PublishAcked(ch.pub1[0], id.value)))
      else if due then (ch, pool, Some(ToPing(None)))
      else (ch, pool, None)
  }

  /** Dropping the disconnect handle closes its channel; there is nothing more to do. */
  function CloseIfDropped(d: DisconnectChannel): DisconnectChannel {
    if d.SenderDropped? then NoChannel else d
  }

  function PollRequest(ch: Channels, pool: Pool, due: bool): (Channels, Pool, Option<Request>)
  {
    if ch.disconnect.Requested? then (ch.(disconnect := NoChannel), pool, Some(ToDisconnect(ch.disconnect.disconnect)))
    else
      var ch := ch.(disconnect := CloseIfDropped(ch.disconnect));
      if ch.acks != [] then (ch.(acks := ch.acks[1..]), pool, Some(ToAcknowledge(ch.acks[0])))
      else PollRest(ch, pool, due)
  }

  /** What waits at each level of urgency; subscriptions and QoS 1 publishes only wait if an identifier is free. */
  ghost predicate Waits(ch: Channels, pool: Pool, due: bool, level: nat) {
    var free := exists x: PacketId :: x <= pool.max && x !in pool.leased;
    match level
    case 0 => ch.disconnect.Requested?
    case 1 => ch.acks != []
    case 2 => ch.auths != []
    case 3 => ch.pings != []
    case 4 => ch.subs != [] && free
    case 5 => ch.pub0 != []
    case 6 => ch.pub1 != [] && free
    case 7 => due
    case _ => false
  }

  function Level(request: Request): nat {
    match request
    case ToDisconnect(_) => 0
    case ToAcknowledge(_) => 1
    case ToReauthenticate(_) => 2
    case ToPing(Some(_)) => 3
    case Subscription(_, _) => 4
    case PublishOnce(_) => 5
    case PublishAcked(_, _) => 6
    case ToPing(None) => 7
  }

  /** The request comes from the front of its queue, and nothing else is taken. */
  ghost predicate TakenFrom(ch: Channels, after: Channels, request: Request) {
    var rest := ch.(disconnect := after.disconnect);
    match request
    case ToDisconnect(d) => ch.disconnect == Requested(d) && after == ch.(disconnect := NoChannel)
    case ToAcknowledge(a) => [a] <= ch.acks && after == rest.(acks := ch.acks[1..])
    case ToReauthenticate(a) => [a] <= ch.auths && after == rest.(auths := ch.auths[1..])
    case ToPing(Some(n)) => [n] <= ch.pings && after == rest.(pings := ch.pings[1..])
    case Subscription(r, _) => [r] <= ch.subs && after == rest.(subs := ch.subs[1..])
    case PublishOnce(r) => [r] <= ch.pub0 && after == rest.(pub0 := ch.pub0[1..])
    case PublishAcked(r, _) => [r] <= ch.pub1 && after == rest.(pub1 := ch.pub1[1..])
    case ToPing(None) => rest == after
  }

  /** Polling takes the most urgent request that waits, and nothing only if nothing waits. */
  lemma PollTakesMostUrgent(ch: Channels, pool: Pool, due: bool)
    ensures match PollRequest(ch, pool, due).2
      case None => forall k :: 0 <= k < 8 ==> !Waits(ch, pool, due, k)
      case Some(r) => Waits(ch, pool, due, Level(r)) && forall k :: 0 <= k < Level(r) ==> !Waits(ch, pool, due, k)
  {
    hide Lease;
    LeaseIsFirstFree(pool);
  }

  /** The request is the oldest of its kind, and only the identifier it is handed out with is leased. */
  lemma PollTakesOldest(ch: Channels, pool: Pool, due: bool)
    ensures var (after, left, request) := PollRequest(ch, pool, due);
      match request
      case None => left == pool && after == ch.(disconnect := CloseIfDropped(ch.disconnect))
      case Some(r) =>
        && TakenFrom(ch, after, r)
        && if r.Subscription? || r.PublishAcked? then r.id !in pool.leased && left.leased == pool.leased + {r.id} else left == pool
  {
    hide Lease;
    LeaseIsFirstFree(pool);
  }

  datatype Next = Chosen(request: Request) | Idle | Forged

  predicate HeadReady(tracker: Tracker) {
    tracker != [] && tracker[0].value.Some?
  }

  /**
   * The loop of `next_outgoing_request`. Acknowledgements leave in the order of the PUBLISHes they answer; those of
   * an earlier connection are dropped.
   */
  function NextRequest(s: State, due: bool): (State, Next)
    decreases |s.ch.acks|, |s.tracker|
  {
    if HeadReady(s.tracker) then
      var ack := s.tracker[0].value.value;
      var rest := s.(tracker := s.tracker[1..]);
      if ack.epoch == s.link.epoch then (rest, Chosen(ToAcknowledge(ack))) else NextRequest(rest, due)
    else
      var (ch, pool, request) := PollRequest(s.ch, s.pool, due && s.link.keepAlive.Every?);
      var polled := s.(ch := ch, pool := pool);
      match request
      case None => (polled, Idle)
      case Some(ToAcknowledge(ack)) =>
        if ack.epoch != s.link.epoch then NextRequest(polled, due)
        else if Find(s.tracker, ack.puback.id) == |s.tracker| then (polled, Forged)
        else NextRequest(polled.(tracker := Insert(s.tracker, ack.puback.id, Some(ack))), due)
      case Some(chosen) => (polled, Chosen(chosen))
  }

  /** What is recorded about a request as it becomes a packet. */
  function Register(f: Inflight, request: Request): (Inflight, Outgoing) {
    match request
    case ToDisconnect(d) => (f, Control(DisconnectPacket(d)))
    case ToAcknowledge(ack) => (f, Control(PubAckPacket(ack.puback)))
    case Subscription(ToSubscribe(n, to, subscriptionId, users), id) =>
      (f.(subscribes := f.subscribes[id := n]), Control(SubscribePacket(Subscribe(id, [to], subscriptionId, users))))
    case Subscription(ToUnsubscribe(n, filter, users), id) =>
      (f.(unsubscribes := f.unsubscribes[id := n]), Unsubscribe(id, filter, users))
    case PublishOnce(r) => (f, Control(PublishPacket(ToPublish(r, Once))))
    case PublishAcked(r, id) =>
      var p := ToPublish(r, Acked(id, false));
      (f.(publishes := Insert(f.publishes, id, Sent(p, r.notifier))), Control(PublishPacket(p)))
    case ToReauthenticate(a) => (f.(auth := Some((a.authentication.scheme, a.notifier))), Authenticate(a.authentication))
    case ToPing(n) => (f.(pings := f.pings + [n]), Control(PingReqPacket))
  }

  /** The message of the PUBLISH is the one asked for. */
  predicate SameMessage(p: Publish, topic: Text, payload: Bytes, retain: bool, properties: PublishProperties) {
    p.topic == topic && p.payload == payload && p.retain == retain && p.properties == properties
  }

  /** The SUBSCRIBE or UNSUBSCRIBE asks for what the application asked for. */
  predicate SameSubscription(packet: Outgoing, r: SubscriptionRequest) {
    match r
    case ToSubscribe(_, to, subscriptionId, users) =>
      && packet.Control? && packet.packet.SubscribePacket?
      && packet.packet.subscribe.to == [to] && packet.packet.subscribe.subscriptionId == subscriptionId
      && packet.packet.subscribe.users == users
    case ToUnsubscribe(_, filter, users) => packet.Unsubscribe? && packet.filter == filter && packet.users == users
  }

  /** The packet is the one that the request asks for, field by field. */
  predicate Carries(packet: Outgoing, request: Request) {
    match request
    case ToDisconnect(d) => packet == Control(DisconnectPacket(d))
    case ToAcknowledge(a) => packet == Control(PubAckPacket(a.puback))
    case ToReauthenticate(a) => packet == Authenticate(a.authentication)
    case ToPing(_) => packet == Control(PingReqPacket)
    case Subscription(r, id) =>
      SameSubscription(packet, r) && id == if packet.Control? then packet.packet.subscribe.id else packet.id
    case PublishOnce(r) =>
      && packet.Control? && packet.packet.PublishPacket? && packet.packet.publish.delivery == Once
      && SameMessage(packet.packet.publish, r.topic, r.payload, r.retain, r.properties)
    case PublishAcked(r, id) =>
      && packet.Control? && packet.packet.PublishPacket? && packet.packet.publish.delivery == Acked(id, false)
      && SameMessage(packet.packet.publish, r.topic, r.payload, r.retain, r.properties)
  }

  /** Every request becomes the packet it asks for. */
  lemma RegisterCarries(f: Inflight, request: Request)
    ensures Carries(Register(f, request).1, request)
  {
    hide Insert;
  }

  datatype Output = Sending(packet: Outgoing) | NothingToSend | Panic

  /** `next_outgoing_packet`: what is to be replayed goes first. */
  function NextPacket(s: State, due: bool): (State, Output)
  {
    if s.inflight.replay != [] then
      var p := WithDup(s.inflight.replay[0]);
      (s.(inflight := s.inflight.(replay := s.inflight.replay[1..])), Sending(Control(PublishPacket(p))))
    else
      var (after, next) := NextRequest(s, due);
      match next
      case Idle => (after, NothingToSend)
      case Forged => (after, Panic)
      case Chosen(request) =>
        var (inflight, packet) := Register(after.inflight, request);
        (after.(inflight := inflight), Sending(packet))
  }

  // --- Incoming packets ---

  datatype ProtocolError = UnexpectedPacket | AuthenticationMethodMismatch

  function Done(ok: bool): Result<(), ProtocolError> {
    if ok then Success(()) else Failure(UnexpectedPacket)
  }

  /** `complete_inflight`: the identifier is released before it is known whose it is. */
  function CompleteSubscribe(s: State, id: PacketId): (State, Result<(), ProtocolError>) {
    (s.(pool := Release(s.pool, id), inflight := s.inflight.(subscribes := s.inflight.subscribes - {id})),
     Done(id in s.inflight.subscribes))
  }

  function CompleteUnsubscribe(s: State, id: PacketId): (State, Result<(), ProtocolError>) {
    (s.(pool := Release(s.pool, id), inflight := s.inflight.(unsubscribes := s.inflight.unsubscribes - {id})),
     Done(id in s.inflight.unsubscribes))
  }

  function CompletePublish(s: State, puback: PubAck): (State, Result<(), ProtocolError>) {
    var f := s.inflight;
    var i := Find(f.publishes, puback.id);
    var released := s.(pool := Release(s.pool, puback.id));
    if i < |f.publishes| then
      (released.(inflight := f.(publishes := Remove(f.publishes, puback.id)),
                 notices := s.notices + [Notice(f.publishes[i].value.notifier, Completed(puback))]), Done(true))
    else (released, Done(false))
  }

  datatype Token = Token(serial: nat, id: PacketId, epoch: nat)

  function AnswerOf(t: Token, reason: byte, properties: PubAckProperties): AckRequest {
    AckRequest(t.serial, PubAck(t.id, reason, properties), t.epoch)
  }

  /** A token that is dropped unused still acknowledges its PUBLISH. */
  function DroppedAnswer(t: Token): AckRequest {
    AnswerOf(t, SUCCESS, NO_PUBACK_PROPERTIES)
  }

  datatype Delivered = NoToken | Handed(token: Token) | Panicked

  /** `gone`: the application dropped the receiver, so that the new token is dropped at once. */
  function IncomingPublish(s: State, p: Publish, gone: bool): (State, Delivered) {
    match p.delivery
    case Once => (s, NoToken)
    case Assured(_, _) => (s, Panicked)
    case Acked(id, _) =>
      if id in Ids(s.tracker) then (s, Panicked)
      else
        var token := Token(s.issued, id, s.link.epoch);
        var tracked := s.(tracker := s.tracker + [Entry(id, None)], issued := s.issued + 1);
        if gone then (tracked.(ch := s.ch.(acks := s.ch.acks + [DroppedAnswer(token)])), NoToken)
        else (tracked, Handed(token))
  }

  function IncomingPingResp(s: State): State {
    if s.inflight.pings == [] then s else s.(inflight := s.inflight.(pings := s.inflight.pings[1..]))
  }

  predicate SchemeMatches(authentication: Option<Authentication>, expected: Option<Text>) {
    match (authentication, expected)
    case (None, None) => true
    case (Some(a), Some(e)) => a.scheme == e
    case _ => false
  }

  function IncomingAuth(s: State, auth: Auth, lenient: bool): (State, Result<(), ProtocolError>) {
    match s.inflight.auth
    case None => (s, Failure(UnexpectedPacket))
    case Some((scheme, _)) =>
      var omitted := lenient && auth.reason.AuthSuccess? && auth.authentication.None?;
      if !omitted && !SchemeMatches(auth.authentication, Some(scheme)) then (s, Failure(AuthenticationMethodMismatch))
      else if auth.reason.ReAuthenticate? then (s, Failure(UnexpectedPacket))
      else (s.(inflight := s.inflight.(auth := None)), Success(()))
  }

  datatype ConnAckReason = Accepted(sessionPresent: bool) | Refused

  datatype ConnAck = ConnAck(
    reason: ConnAckReason,
    sessionExpiry: Option<SessionExpiry>,
    serverKeepAlive: Option<KeepAlive>,
    authentication: Option<Authentication>)

  /** What the client asked for in its CONNECT. */
  datatype Asked = Asked(keepAlive: KeepAlive, scheme: Option<Text>, expiry: SessionExpiry)

  function Or<T>(o: Option<T>, default: T): T {
    if o.Some? then o.value else default
  }

  predicate RefusesScheme(connack: ConnAck, asked: Asked, lenient: bool) {
    && !(lenient && asked.scheme.Some? && connack.reason.Accepted? && connack.authentication.None?)
    && !(asked.scheme.Some? && connack.reason.Refused?)
    && !SchemeMatches(connack.authentication, asked.scheme)
  }

  /** `incoming_connack`, and the disconnect channel that `connect` opens once it succeeded. */
  function IncomingConnAck(s: State, connack: ConnAck, asked: Asked, lenient: bool): (State, Result<(), ProtocolError>) {
    if RefusesScheme(connack, asked, lenient) then (s, Failure(AuthenticationMethodMismatch))
    else if connack.reason.Refused? then (s, Success(()))
    else
      var kept := if connack.reason.sessionPresent then s else SessionExpired(s);
      var link := Link(true, s.link.epoch + 1, Or(connack.sessionExpiry, asked.expiry), Or(connack.serverKeepAlive, asked.keepAlive));
      (kept.(link := link, ch := kept.ch.(disconnect := Waiting)), Success(()))
  }

  // --- The end of a connection ---

  function ReplayOf(publishes: seq<Entry<Sent>>): (r: seq<Publish>)
    ensures |r| == |publishes|
  {
    seq(|publishes|, i requires 0 <= i < |publishes| => WithDup(publishes[i].value.publish))
  }

  /** Subscriptions, pings and reauthentication end with the connection, and so does the order of acknowledgements. */
  function Disconnected(s: State): State {
    var f := s.inflight;
    s.(link := s.link.(connected := false, keepAlive := Off),
       pool := s.pool.(leased := s.pool.leased - f.subscribes.Keys - f.unsubscribes.Keys),
       tracker := [],
       inflight := Inflight(f.publishes, ReplayOf(f.publishes), map[], map[], None, []))
  }

  function Cancellations(publishes: seq<Entry<Sent>>): (ns: seq<Notice>)
    ensures |ns| == |publishes|
  {
    seq(|publishes|, i requires 0 <= i < |publishes| => Notice(publishes[i].value.notifier, Cancelled))
  }

  function SessionExpired(s: State): State {
    s.(pool := s.pool.(leased := s.pool.leased - Ids(s.inflight.publishes)),
       inflight := s.inflight.(publishes := [], replay := []),
       notices := s.notices + Cancellations(s.inflight.publishes))
  }

  function ExpireIfZero(s: State): State {
    if s.link.expiry == Duration(0) then SessionExpired(s) else s
  }

  /** `server_disconnect` and `transport_disconnect`: neither may change the expiry interval. */
  function ConnectionLost(s: State): State {
    ExpireIfZero(Disconnected(s))
  }

  function ClientDisconnect(s: State, d: Disconnect): State {
    var off := Disconnected(s);
    ExpireIfZero(off.(link := off.link.(expiry := Or(d.properties.sessionExpiry, off.link.expiry))))
  }
}
