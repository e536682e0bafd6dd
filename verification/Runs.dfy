/**
 * Runs of a session: any interleaving of requests, tokens that are used or dropped, packets in both directions, and
 * connections that begin and end. The histories beside the session record what it took in and gave out.
 */
module Runs {
  import opened Wrappers
  import opened Bytes
  import opened Packets
  import opened PkidPool
  import opened OrderedMap
  import opened SessionState
  import opened AckOrder

  /** A QoS 1 PUBLISH that was given out, and the request it was given out for. */
  datatype Returned = Returned(notifier: nat, publish: Publish)

  /** What became of QoS 1 publish requests, over all connections, and the output of this connection. */
  datatype OutLog = OutLog(
    requests: seq<PublishRequest>,
    leases: seq<PacketId>,
    returned: seq<Returned>,
    replaying: seq<Publish>,
    outputs: seq<Outgoing>)

  /** The QoS 1 PUBLISHes received and the PUBACKs given out on this connection, and all answers ever given. */
  datatype InLog = InLog(received: seq<Token>, acked: seq<PubAck>, answers: map<nat, PubAck>)

  /** `agreed` is the expiry interval of the last CONNACK or CONNECT, and then of the application's DISCONNECT. */
  datatype World = World(s: State, tokens: seq<Token>, outlog: OutLog, inlog: InLog, agreed: SessionExpiry)

  function NewWorld(max: PacketId): World {
    World(NewSession(max), [], OutLog([], [], [], [], []), InLog([], [], map[]), Duration(0))
  }

  datatype Event =
    // The application
    | SubmitPublish(topic: Text, payload: Bytes, retain: bool, properties: PublishProperties)
    | SubmitPublishOnce(once: PublishRequest)
    | SubmitSubscription(sub: SubscriptionRequest)
    | SubmitPing(notifier: nat)
    | SubmitAuth(auth: AuthRequest)
    | AskDisconnect(disconnect: Disconnect)
    | DropDisconnectHandle
    | UseToken(index: nat, reason: byte, ack: PubAckProperties)
    | DropToken(index: nat)
    // The connection
    | Next(due: bool)
    | InSubAck(id: PacketId)
    | InUnsubAck(id: PacketId)
    | InPubAck(puback: PubAck)
    | InPublish(publish: Publish, gone: bool)
    | InPingResp
    | InAuth(authIn: Auth, lenient: bool)
    | Leave(disconnect: Disconnect)
    | Lose
    // The next connection
    | InConnAck(connack: ConnAck, asked: Asked, lenient: bool)

  /** What the client's own structure allows: packets flow while connected, a CONNACK comes while not connected. */
  predicate Enabled(w: World, e: Event) {
    match e
    case SubmitPublish(_, _, _, _) => true
    case SubmitPublishOnce(_) => true
    case SubmitSubscription(_) => true
    case SubmitPing(_) => true
    case SubmitAuth(_) => true
    case AskDisconnect(_) => w.s.ch.disconnect.Waiting?
    case DropDisconnectHandle => w.s.ch.disconnect.Waiting?
    case UseToken(i, _, _) => i < |w.tokens|
    case DropToken(i) => i < |w.tokens|
    case InConnAck(_, _, _) => !w.s.link.connected
    case InPublish(p, _) => w.s.link.connected && !p.delivery.Assured?
    case _ => w.s.link.connected
  }

  // --- Steps ---

  /** The request that an identifier is in flight for; `nobody` if there is none. */
  function HolderOf(publishes: seq<Entry<Sent>>, id: PacketId, nobody: nat): nat {
    var i := Find(publishes, id);
    if i < |publishes| then publishes[i].value.notifier else nobody
  }

  predicate IsAckedPublish(packet: Outgoing) {
    packet.Control? && packet.packet.PublishPacket? && packet.packet.publish.delivery.Acked?
  }

  /** The packets that lease an identifier and wait for an acknowledgement. */
  predicate AwaitsAck(packet: Outgoing) {
    IsAckedPublish(packet) || packet.Unsubscribe? || (packet.Control? && packet.packet.SubscribePacket?)
  }

  /** `first`: the packet was made from a request that was just taken from its queue. */
  function RecordPacket(h: OutLog, publishes: seq<Entry<Sent>>, packet: Outgoing, first: bool): OutLog {
    var out := h.(outputs := h.outputs + [packet]);
    if IsAckedPublish(packet) then
      var p := packet.packet.publish;
      out.(returned := h.returned + [Returned(HolderOf(publishes, p.delivery.id, |h.requests|), p)],
           leases := if first then h.leases + [p.delivery.id] else h.leases)
    else out
  }

  function RecordAck(h: InLog, packet: Outgoing): InLog {
    if packet.Control? && packet.packet.PubAckPacket? then h.(acked := h.acked + [packet.packet.puback]) else h
  }

  function StepNext(w: World, due: bool): World {
    var (s, out) := NextPacket(w.s, due);
    match out
    case Sending(packet) =>
      w.(s := s,
         outlog := RecordPacket(w.outlog, s.inflight.publishes, packet, |s.ch.pub1| < |w.s.ch.pub1|),
         inlog := RecordAck(w.inlog, packet))
    case _ => w.(s := s)
  }

  function StepAnswer(w: World, i: nat, a: AckRequest): World
    requires i < |w.tokens|
  {
    w.(s := w.s.(ch := w.s.ch.(acks := w.s.ch.acks + [a])),
       tokens := w.tokens[..i] + w.tokens[i + 1..],
       inlog := w.inlog.(answers := w.inlog.answers[w.tokens[i].serial := a.puback]))
  }

  /** A PUBLISH on which the original panics changes nothing here: what is said of runs is said up to that point. */
  function StepPublishIn(w: World, p: Publish, gone: bool): World {
    var (s, delivered) := IncomingPublish(w.s, p, gone);
    if s.issued == w.s.issued then w
    else
      var token := Token(w.s.issued, s.tracker[|s.tracker| - 1].id, s.link.epoch);
      var h := w.inlog.(received := w.inlog.received + [token]);
      if delivered.Handed? then w.(s := s, tokens := w.tokens + [delivered.token], inlog := h)
      else w.(s := s, inlog := h.(answers := h.answers[token.serial := DroppedAnswer(token).puback]))
  }

  predicate Accepts(connack: ConnAck, asked: Asked, lenient: bool) {
    connack.reason.Accepted? && !RefusesScheme(connack, asked, lenient)
  }

  function StepConnAck(w: World, connack: ConnAck, asked: Asked, lenient: bool): World {
    var s := IncomingConnAck(w.s, connack, asked, lenient).0;
    if !Accepts(connack, asked, lenient) then w.(s := s)
    else
      World(s, w.tokens, w.outlog.(replaying := s.inflight.replay, outputs := []),
            w.inlog.(received := [], acked := []), Or(connack.sessionExpiry, asked.expiry))
  }

  function Submit(w: World, ch: Channels): World {
    w.(s := w.s.(ch := ch))
  }

  function Step(w: World, e: Event): World
    requires Enabled(w, e)
  {
    var ch := w.s.ch;
    match e
    case SubmitPublish(topic, payload, retain, properties) =>
      // Requests are named by the order in which they were made.
      var r := PublishRequest(|w.outlog.requests|, topic, payload, retain, properties);
      Submit(w, ch.(pub1 := ch.pub1 + [r])).(outlog := w.outlog.(requests := w.outlog.requests + [r]))
    case SubmitPublishOnce(r) => Submit(w, ch.(pub0 := ch.pub0 + [r]))
    case SubmitSubscription(r) => Submit(w, ch.(subs := ch.subs + [r]))
    case SubmitPing(n) => Submit(w, ch.(pings := ch.pings + [n]))
    case SubmitAuth(r) => Submit(w, ch.(auths := ch.auths + [r]))
    case AskDisconnect(d) => Submit(w, ch.(disconnect := Requested(d)))
    case DropDisconnectHandle => Submit(w, ch.(disconnect := SenderDropped))
    case UseToken(i, reason, properties) => StepAnswer(w, i, AnswerOf(w.tokens[i], reason, properties))
    case DropToken(i) => StepAnswer(w, i, DroppedAnswer(w.tokens[i]))
    case Next(due) => StepNext(w, due)
    case InSubAck(id) => w.(s := CompleteSubscribe(w.s, id).0)
    case InUnsubAck(id) => w.(s := CompleteUnsubscribe(w.s, id).0)
    case InPubAck(puback) => w.(s := CompletePublish(w.s, puback).0)
    case InPublish(p, gone) => StepPublishIn(w, p, gone)
    case InPingResp => w.(s := IncomingPingResp(w.s))
    case InAuth(auth, lenient) => w.(s := IncomingAuth(w.s, auth, lenient).0)
    case Leave(d) => w.(s := ClientDisconnect(w.s, d), agreed := Or(d.properties.sessionExpiry, w.agreed))
    case Lose => w.(s := ConnectionLost(w.s))
    case InConnAck(connack, asked, lenient) => StepConnAck(w, connack, asked, lenient)
  }

  /** Steps that have nothing to do with identifiers, with QoS 1 publish requests or with the connection as such. */
  predicate Elsewhere(e: Event) {
    || e.SubmitPublishOnce? || e.SubmitSubscription? || e.SubmitPing? || e.SubmitAuth? || e.AskDisconnect?
    || e.DropDisconnectHandle? || e.UseToken? || e.DropToken? || e.InPublish? || e.InPingResp? || e.InAuth?
  }

  lemma ElsewhereKeeps(w: World, e: Event)
    requires Enabled(w, e) && Elsewhere(e)
    ensures var v := Step(w, e);
      && v.s.pool == w.s.pool && v.s.notices == w.s.notices && v.s.link == w.s.link && v.s.ch.pub1 == w.s.ch.pub1
      && v.outlog == w.outlog && v.agreed == w.agreed
      && v.s.inflight == w.s.inflight.(auth := v.s.inflight.auth, pings := v.s.inflight.pings)
  {
  }

  /** A run from a new session. */
  ghost predicate Run(ws: seq<World>, es: seq<Event>) {
    && |ws| == |es| + 1
    && (exists max: PacketId :: ws[0] == NewWorld(max))
    && forall i :: 0 <= i < |es| ==> Enabled(ws[i], es[i]) && ws[i + 1] == Step(ws[i], es[i])
  }

  lemma NewRun(max: PacketId)
    ensures Run([NewWorld(max)], [])
  {
  }

  lemma RunLength(ws: seq<World>, es: seq<Event>)
    requires Run(ws, es)
    ensures |ws| == |es| + 1
  {
  }

  lemma RunSnoc(ws: seq<World>, es: seq<Event>, e: Event)
    requires Run(ws, es) && |ws| == |es| + 1 && Enabled(ws[|es|], e)
    ensures Run(ws + [Step(ws[|es|], e)], es + [e])
  {
    hide Step;
    assert (ws + [Step(ws[|es|], e)])[0] == ws[0];
  }

  // --- What the server is trusted with ---

  /** An acknowledgement does not name an identifier held by an operation of another kind. */
  predicate KindMatches(s: State, e: Event) {
    var f := s.inflight;
    match e
    case InSubAck(id) => id !in f.unsubscribes && id !in Ids(f.publishes)
    case InUnsubAck(id) => id !in f.subscribes && id !in Ids(f.publishes)
    case InPubAck(puback) => puback.id !in f.subscribes && puback.id !in f.unsubscribes
    case _ => true
  }

  predicate ReplayHas(replay: seq<Publish>, id: PacketId) {
    exists i :: 0 <= i < |replay| && replay[i].delivery.Acked? && replay[i].delivery.id == id
  }

  /** A PUBLISH that still waits for its replay is not acknowledged. */
  predicate NotBeforeReplay(s: State, e: Event) {
    e.InPubAck? ==> !ReplayHas(s.inflight.replay, e.puback.id)
  }

  /** An identifier is not used again before its PUBLISH is acknowledged. */
  predicate NotReused(s: State, e: Event) {
    e.InPublish? && e.publish.delivery.Acked? ==> e.publish.delivery.id !in Ids(s.tracker)
  }

  // --- What the next packet can be ---

  datatype Kind = Replays | FirstSend(id: PacketId) | Subscribes(id: PacketId) | Others

  /** The table has this one identifier more, or again. */
  ghost predicate Adds(before: map<PacketId, nat>, after: map<PacketId, nat>, id: PacketId) {
    id in after && after - {id} == before - {id}
  }

  /** What one call of `NextPacket` does outside of the acknowledgements. */
  ghost predicate NextIs(s: State, after: State, out: Output, kind: Kind) {
    var f, g := s.inflight, after.inflight;
    && after.link == s.link && after.notices == s.notices && after.issued == s.issued
    && match kind
       case Replays =>
         && f.replay != [] && after == s.(inflight := f.(replay := f.replay[1..]))
         && out == Sending(Control(PublishPacket(WithDup(f.replay[0]))))
       case FirstSend(id) =>
         && f.replay == [] && s.ch.pub1 != [] && after.ch.pub1 == s.ch.pub1[1..]
         && Lease(s.pool) == (after.pool, Some(id))
         && var r := s.ch.pub1[0]; var p := ToPublish(r, Acked(id, false));
           && g == f.(publishes := Insert(f.publishes, id, Sent(p, r.notifier)))
           && out == Sending(Control(PublishPacket(p)))
       case Subscribes(id) =>
         && f.replay == [] && after.ch.pub1 == s.ch.pub1
         && Lease(s.pool) == (after.pool, Some(id))
         && g == f.(subscribes := g.subscribes, unsubscribes := g.unsubscribes)
         && out.Sending?
         && if out.packet.Unsubscribe? then
           out.packet.id == id && g.subscribes == f.subscribes && Adds(f.unsubscribes, g.unsubscribes, id)
         else
           && out.packet.Control? && out.packet.packet.SubscribePacket? && out.packet.packet.subscribe.id == id
           && g.unsubscribes == f.unsubscribes && Adds(f.subscribes, g.subscribes, id)
       case Others =>
         && f.replay == [] && after.ch.pub1 == s.ch.pub1 && after.pool == s.pool
         && g == f.(auth := g.auth, pings := g.pings)
         && (out.Sending? ==> !AwaitsAck(out.packet))
  }

  lemma RequestKind(s: State, due: bool) returns (kind: Kind)
    requires s.inflight.replay == []
    ensures var (after, next) := NextRequest(s, due);
      && after.link == s.link && after.notices == s.notices && after.issued == s.issued && after.inflight == s.inflight
      && match kind
         case Replays => false
         case FirstSend(id) =>
           && s.ch.pub1 != [] && after.ch.pub1 == s.ch.pub1[1..] && Lease(s.pool) == (after.pool, Some(id))
           && next == Chosen(PublishAcked(s.ch.pub1[0], id))
         case Subscribes(id) =>
           && after.ch.pub1 == s.ch.pub1 && Lease(s.pool) == (after.pool, Some(id))
           && next.Chosen? && next.request.Subscription? && next.request.id == id
         case Others =>
           && after.ch.pub1 == s.ch.pub1 && after.pool == s.pool
           && !(next.Chosen? && (next.request.PublishAcked? || next.request.Subscription?))
  {
    hide Lease, Settle, SkipStale, NextRequest;
    LoopIsOnePass(s, due);
    var next := NextInOnePass(s, due).1;
    if next.Chosen? && next.request.PublishAcked? {
      kind := FirstSend(next.request.id);
    } else if next.Chosen? && next.request.Subscription? {
      kind := Subscribes(next.request.id);
    } else {
      kind := Others;
    }
  }

  lemma NextKind(s: State, due: bool) returns (kind: Kind)
    ensures NextIs(s, NextPacket(s, due).0, NextPacket(s, due).1, kind)
  {
    hide NextRequest, Insert, Lease;
    if s.inflight.replay != [] {
      return Replays;
    }
    kind := RequestKind(s, due);
    var next := NextRequest(s, due).1;
    if next.Chosen? && next.request.Subscription? {
      var f, n := s.inflight, next.request.sub.notifier;
      assert Adds(f.subscribes, f.subscribes[kind.id := n], kind.id);
      assert Adds(f.unsubscribes, f.unsubscribes[kind.id := n], kind.id);
      assert NextIs(s, NextPacket(s, due).0, NextPacket(s, due).1, kind);
    }
  }
}
