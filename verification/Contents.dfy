/**
 * What the packets of a run carry, said in the terms of the events that made them.
 *
 * The histories of `Runs` record what the session gave out. Here it is compared with what the application asked for and
 * what the server sent: contents, reasons, identifiers and intervals are those of the events, field by field.
 */
module Contents {
  import opened Wrappers
  import opened Bytes
  import opened Packets
  import opened OrderedMap
  import opened SessionState
  import opened AckOrder
  import opened Runs
  import opened AckRuns
  import opened Identifiers
  import opened Replay
  import opened Expiry
  import P = PkidPool

  // --- Queues ---

  predicate IsOnce(packet: Outgoing) {
    packet.Control? && packet.packet.PublishPacket? && packet.packet.publish.delivery.Once?
  }

  predicate IsSubscription(packet: Outgoing) {
    packet.Unsubscribe? || (packet.Control? && packet.packet.SubscribePacket?)
  }

  predicate IsDisconnectPacket(packet: Outgoing) {
    packet.Control? && packet.packet.DisconnectPacket?
  }

  predicate IsPing(packet: Outgoing) {
    packet == Control(PingReqPacket)
  }

  /** A packet is made from the oldest request of its queue, and all other queues stay as they are. */
  ghost predicate QueuesMove(s: State, t: State, packet: Option<Outgoing>) {
    && (if packet.Some? && IsOnce(packet.value) then
          && s.ch.pub0 != [] && t.ch.pub0 == s.ch.pub0[1..]
          && var r := s.ch.pub0[0]; SameMessage(packet.value.packet.publish, r.topic, r.payload, r.retain, r.properties)
        else t.ch.pub0 == s.ch.pub0)
    && (if packet.Some? && IsSubscription(packet.value) then
          s.ch.subs != [] && t.ch.subs == s.ch.subs[1..] && SameSubscription(packet.value, s.ch.subs[0])
        else t.ch.subs == s.ch.subs)
    && (if packet.Some? && packet.value.Authenticate? then
          && s.ch.auths != [] && t.ch.auths == s.ch.auths[1..] && packet.value.authentication == s.ch.auths[0].authentication
          && t.inflight.auth == Some((s.ch.auths[0].authentication.scheme, s.ch.auths[0].notifier))
        else t.ch.auths == s.ch.auths && t.inflight.auth == s.inflight.auth)
    && (if packet.Some? && IsDisconnectPacket(packet.value) then
          s.ch.disconnect == Requested(packet.value.packet.disconnect) && t.ch.disconnect == NoChannel
        else t.ch.disconnect.Requested? ==> t.ch.disconnect == s.ch.disconnect)
  }

  /** A PINGREQ is the oldest one asked for or, if none is, one that the keep alive calls for; it is answered last. */
  ghost predicate PingsMove(s: State, t: State, packet: Option<Outgoing>, due: bool) {
    if packet.Some? && IsPing(packet.value) then
      if s.ch.pings != [] then
        t.ch.pings == s.ch.pings[1..] && t.inflight.pings == s.inflight.pings + [Some(s.ch.pings[0])]
      else
        && due && s.link.keepAlive.Every? && t.ch.pings == []
        && t.inflight.pings == s.inflight.pings + [None]
    else t.ch.pings == s.ch.pings && t.inflight.pings == s.inflight.pings
  }

  function PacketOf(out: Output): Option<Outgoing> {
    if out.Sending? then Some(out.packet) else None
  }

  /** A request is the oldest of its queue, and the other queues stay as they are. */
  ghost predicate Takes(ch: Channels, after: Channels, request: Option<Request>, due: bool) {
    && (if request.Some? && request.value.PublishOnce? then [request.value.publish] <= ch.pub0 && after.pub0 == ch.pub0[1..]
        else after.pub0 == ch.pub0)
    && (if request.Some? && request.value.Subscription? then [request.value.sub] <= ch.subs && after.subs == ch.subs[1..]
        else after.subs == ch.subs)
    && (if request.Some? && request.value.ToReauthenticate? then [request.value.auth] <= ch.auths && after.auths == ch.auths[1..]
        else after.auths == ch.auths)
    && (if request.Some? && request.value.ToPing? then
          if ch.pings != [] then after.pings == ch.pings[1..] && request.value.notifier == Some(ch.pings[0])
          else after.pings == [] && request.value.notifier == None && due
        else after.pings == ch.pings)
  }

  lemma RestTakes(ch: Channels, pool: P.Pool, due: bool)
    ensures var (after, _, request) := PollRest(ch, pool, due);
      && Takes(ch, after, request, due) && after.disconnect == ch.disconnect
      && (request.Some? ==> !request.value.ToDisconnect?)
  {
    hide P.Lease;
  }

  /** The queues after one request is chosen, and the request itself. */
  ghost predicate Chooses(s: State, after: State, next: Next, due: bool) {
    var request := if next.Chosen? then Some(next.request) else None;
    && after.inflight == s.inflight && after.link == s.link
    && Takes(s.ch, after.ch, request, due && s.link.keepAlive.Every?)
    && (if request.Some? && request.value.ToDisconnect? then
          s.ch.disconnect == Requested(request.value.disconnect) && after.ch.disconnect == NoChannel
        else after.ch.disconnect.Requested? ==> after.ch.disconnect == s.ch.disconnect)
  }

  lemma NextChooses(s: State, due: bool)
    ensures Chooses(s, NextRequest(s, due).0, NextRequest(s, due).1, due)
  {
    hide Settle, SkipStale, NextRequest, PollRest;
    LoopIsOnePass(s, due);
    var acks := Settle(s.ch.acks, SkipStale(s.tracker, s.link.epoch), s.link.epoch).0;
    var ch := s.ch.(disconnect := CloseIfDropped(s.ch.disconnect), acks := acks);
    RestTakes(ch, s.pool, due && s.link.keepAlive.Every?);
    var (rest, _, request) := PollRest(ch, s.pool, due && s.link.keepAlive.Every?);
    SameTakes(s.ch, ch, rest, request, due && s.link.keepAlive.Every?);
  }

  lemma SameTakes(a: Channels, b: Channels, after: Channels, request: Option<Request>, due: bool)
    requires b == a.(disconnect := b.disconnect, acks := b.acks)
    ensures Takes(a, after, request, due) == Takes(b, after, request, due)
  {
  }

  lemma NextMoves(s: State, due: bool)
    requires s.inflight.replay == []
    ensures var (t, out) := NextPacket(s, due); QueuesMove(s, t, PacketOf(out)) && PingsMove(s, t, PacketOf(out), due)
  {
    hide NextRequest, Insert;
    NextChooses(s, due);
    var (after, next) := NextRequest(s, due);
    if next.Chosen? {
      hide ToPublish;
      RegisterCarries(after.inflight, next.request);
    }
  }

  // --- The events of a run ---

  /** The QoS 1 publish requests among the events, in order. */
  function Publishing(es: seq<Event>): (r: seq<Event>)
    ensures forall n :: 0 <= n < |r| ==> r[n].SubmitPublish?
  {
    if es == [] then [] else Publishing(es[..|es| - 1]) + (if es[|es| - 1].SubmitPublish? then [es[|es| - 1]] else [])
  }

  /** The QoS 0 publish requests among the events, in order. */
  function PublishingOnce(es: seq<Event>): (r: seq<PublishRequest>) {
    if es == [] then [] else PublishingOnce(es[..|es| - 1]) + (if es[|es| - 1].SubmitPublishOnce? then [es[|es| - 1].once] else [])
  }

  function Subscribing(es: seq<Event>): (r: seq<SubscriptionRequest>) {
    if es == [] then [] else Subscribing(es[..|es| - 1]) + (if es[|es| - 1].SubmitSubscription? then [es[|es| - 1].sub] else [])
  }

  function Authenticating(es: seq<Event>): (r: seq<AuthRequest>) {
    if es == [] then [] else Authenticating(es[..|es| - 1]) + (if es[|es| - 1].SubmitAuth? then [es[|es| - 1].auth] else [])
  }

  /** The DISCONNECT that the application asked for on this connection, if any. */
  function DisconnectAsked(es: seq<Event>): Option<Disconnect> {
    if es == [] then None
    else
      var e := es[|es| - 1];
      if e.AskDisconnect? then Some(e.disconnect) else if Begins(e) then None else DisconnectAsked(es[..|es| - 1])
  }

  /** What a step gives out. */
  function Given(w: World, e: Event): Option<Outgoing> {
    if e.Next? then PacketOf(NextPacket(w.s, e.due).1) else None
  }

  /** Everything given out in the first `i` steps of a run, over all connections. */
  function Emitted(ws: seq<World>, es: seq<Event>, i: nat): seq<Outgoing>
    requires i <= |es| && i <= |ws|
  {
    if i == 0 then []
    else
      var packet := Given(ws[i - 1], es[i - 1]);
      Emitted(ws, es, i - 1) + (if packet.Some? then [packet.value] else [])
  }

  function OnceOf(out: seq<Outgoing>): seq<Publish> {
    if out == [] then [] else OnceOf(out[..|out| - 1]) + (if IsOnce(out[|out| - 1]) then [out[|out| - 1].packet.publish] else [])
  }

  function SubscriptionsOf(out: seq<Outgoing>): seq<Outgoing> {
    if out == [] then [] else SubscriptionsOf(out[..|out| - 1]) + (if IsSubscription(out[|out| - 1]) then [out[|out| - 1]] else [])
  }

  function AuthenticationsOf(out: seq<Outgoing>): seq<Authentication> {
    if out == [] then []
    else AuthenticationsOf(out[..|out| - 1]) + (if out[|out| - 1].Authenticate? then [out[|out| - 1].authentication] else [])
  }

  // --- Replays are QoS 1 ---

  ghost predicate OnlyAcked(f: Inflight) {
    && (forall i :: 0 <= i < |f.publishes| ==> f.publishes[i].value.publish.delivery.Acked?)
    && (forall i :: 0 <= i < |f.replay| ==> f.replay[i].delivery.Acked?)
  }

  lemma NextKeepsAcked(s: State, due: bool)
    requires OnlyAcked(s.inflight)
    ensures OnlyAcked(NextPacket(s, due).0.inflight)
  {
    hide NextPacket, P.Lease, Find;
    var kind := NextKind(s, due);
  }

  lemma PubAckKeepsAcked(s: State, puback: PubAck)
    requires OnlyAcked(s.inflight)
    ensures OnlyAcked(CompletePublish(s, puback).0.inflight)
  {
    hide Find;
  }

  lemma StepKeepsAcked(w: World, e: Event)
    requires Enabled(w, e) && OnlyAcked(w.s.inflight)
    ensures OnlyAcked(Step(w, e).s.inflight)
  {
    hide StepNext, CompletePublish;
    if Elsewhere(e) {
      ElsewhereKeeps(w, e);
    } else if e.Next? {
      NextKeepsAcked(w.s, e.due);
      StepNextState(w, e.due);
    } else if e.InPubAck? {
      PubAckKeepsAcked(w.s, e.puback);
    }
  }

  /** What one step gives out comes from the front of a queue, or is a repeated QoS 1 PUBLISH and touches no queue. */
  lemma StepMoves(w: World, e: Event)
    requires Enabled(w, e) && OnlyAcked(w.s.inflight) && e.Next?
    ensures QueuesMove(w.s, Step(w, e).s, Given(w, e)) && PingsMove(w.s, Step(w, e).s, Given(w, e), e.due)
  {
    hide NextPacket, QueuesMove, PingsMove;
    StepNextState(w, e.due);
    if w.s.inflight.replay == [] {
      NextMoves(w.s, e.due);
    } else {
      ReplayMoves(w.s, e.due);
    }
  }

  lemma ReplayMoves(s: State, due: bool)
    requires s.inflight.replay != [] && OnlyAcked(s.inflight)
    ensures var (t, out) := NextPacket(s, due); QueuesMove(s, t, PacketOf(out)) && PingsMove(s, t, PacketOf(out), due)
  {
  }

  // --- Requests come out in order, with their content ---

  /** What was given out for a queue, and what still waits in it, is what was asked for. */
  ghost predicate OnceKept(given: seq<Publish>, pub0: seq<PublishRequest>, asked: seq<PublishRequest>) {
    && |given| <= |asked| && pub0 == asked[|given|..]
    && forall k :: 0 <= k < |given| ==> SameMessage(given[k], asked[k].topic, asked[k].payload, asked[k].retain, asked[k].properties)
  }

  ghost predicate SubscriptionsKept(given: seq<Outgoing>, subs: seq<SubscriptionRequest>, asked: seq<SubscriptionRequest>) {
    && |given| <= |asked| && subs == asked[|given|..]
    && forall k :: 0 <= k < |given| ==> SameSubscription(given[k], asked[k])
  }

  ghost predicate AuthenticationsKept(given: seq<Authentication>, auths: seq<AuthRequest>, asked: seq<AuthRequest>) {
    && |given| <= |asked| && auths == asked[|given|..]
    && forall k :: 0 <= k < |given| ==> given[k] == asked[k].authentication
  }

  /** The requests of the application are given out in the order in which they were made, each once and as it was made. */
  ghost predicate RequestsCarried(s: State, out: seq<Outgoing>, es: seq<Event>) {
    && OnceKept(OnceOf(out), s.ch.pub0, PublishingOnce(es))
    && SubscriptionsKept(SubscriptionsOf(out), s.ch.subs, Subscribing(es))
    && AuthenticationsKept(AuthenticationsOf(out), s.ch.auths, Authenticating(es))
    && (s.ch.disconnect.Requested? ==> DisconnectAsked(es) == Some(s.ch.disconnect.disconnect))
  }

  lemma OnceMoves(given: seq<Publish>, pub0: seq<PublishRequest>, asked: seq<PublishRequest>)
    requires OnceKept(given, pub0, asked)
    ensures forall p: Publish :: pub0 != [] && SameMessage(p, pub0[0].topic, pub0[0].payload, pub0[0].retain, pub0[0].properties) ==>
      OnceKept(given + [p], pub0[1..], asked)
    ensures forall r :: OnceKept(given, pub0 + [r], asked + [r])
  {
    hide SameMessage;
  }

  lemma SubscriptionsMove(given: seq<Outgoing>, subs: seq<SubscriptionRequest>, asked: seq<SubscriptionRequest>)
    requires SubscriptionsKept(given, subs, asked)
    ensures forall p: Outgoing :: subs != [] && SameSubscription(p, subs[0]) ==> SubscriptionsKept(given + [p], subs[1..], asked)
    ensures forall r :: SubscriptionsKept(given, subs + [r], asked + [r])
  {
    hide SameSubscription;
  }

  lemma AuthenticationsMove(given: seq<Authentication>, auths: seq<AuthRequest>, asked: seq<AuthRequest>)
    requires AuthenticationsKept(given, auths, asked)
    ensures auths != [] ==> AuthenticationsKept(given + [auths[0].authentication], auths[1..], asked)
    ensures forall r :: AuthenticationsKept(given, auths + [r], asked + [r])
  {
  }

  lemma OneMore(out: seq<Outgoing>, packet: Outgoing)
    ensures OnceOf(out + [packet]) == if IsOnce(packet) then OnceOf(out) + [packet.packet.publish] else OnceOf(out)
    ensures SubscriptionsOf(out + [packet]) == if IsSubscription(packet) then SubscriptionsOf(out) + [packet] else SubscriptionsOf(out)
    ensures AuthenticationsOf(out + [packet]) ==
      if packet.Authenticate? then AuthenticationsOf(out) + [packet.authentication] else AuthenticationsOf(out)
  {
    var all := out + [packet];
    assert all[..|all| - 1] == out;
  }

  lemma OneEvent(es: seq<Event>, e: Event)
    ensures PublishingOnce(es + [e]) == if e.SubmitPublishOnce? then PublishingOnce(es) + [e.once] else PublishingOnce(es)
    ensures Subscribing(es + [e]) == if e.SubmitSubscription? then Subscribing(es) + [e.sub] else Subscribing(es)
    ensures Authenticating(es + [e]) == if e.SubmitAuth? then Authenticating(es) + [e.auth] else Authenticating(es)
    ensures DisconnectAsked(es + [e]) == if e.AskDisconnect? then Some(e.disconnect) else if Begins(e) then None else DisconnectAsked(es)
  {
    var all := es + [e];
    assert all[..|all| - 1] == es;
  }

  lemma CarriedByNext(s: State, t: State, out: seq<Outgoing>, packet: Option<Outgoing>, es: seq<Event>, e: Event)
    requires RequestsCarried(s, out, es) && QueuesMove(s, t, packet) && e.Next?
    ensures RequestsCarried(t, if packet.Some? then out + [packet.value] else out, es + [e])
  {
    hide SameMessage, SameSubscription, OnceKept, SubscriptionsKept, AuthenticationsKept;
    hide OnceOf, SubscriptionsOf, AuthenticationsOf, PublishingOnce, Subscribing, Authenticating, DisconnectAsked;
    OneEvent(es, e);
    OnceMoves(OnceOf(out), s.ch.pub0, PublishingOnce(es));
    SubscriptionsMove(SubscriptionsOf(out), s.ch.subs, Subscribing(es));
    AuthenticationsMove(AuthenticationsOf(out), s.ch.auths, Authenticating(es));
    if packet.Some? {
      OneMore(out, packet.value);
    }
  }

  /** What a step other than giving out a packet does to the queues. */
  lemma QueuesByOthers(w: World, e: Event)
    requires Enabled(w, e) && !e.Next?
    ensures var ch, after := w.s.ch, Step(w, e).s.ch;
      && after.pub0 == (if e.SubmitPublishOnce? then ch.pub0 + [e.once] else ch.pub0)
      && after.subs == (if e.SubmitSubscription? then ch.subs + [e.sub] else ch.subs)
      && after.auths == (if e.SubmitAuth? then ch.auths + [e.auth] else ch.auths)
      && after.disconnect ==
        if e.AskDisconnect? then Requested(e.disconnect) else if e.DropDisconnectHandle? then SenderDropped
        else if Begins(e) then Waiting else ch.disconnect
  {
    hide CompletePublish;
    if e.InPubAck? {
      PubAckIsElsewhere(w.s, e.puback);
    }
  }

  lemma CarriedByOthers(w: World, e: Event, out: seq<Outgoing>, es: seq<Event>)
    requires Enabled(w, e) && RequestsCarried(w.s, out, es) && !e.Next?
    ensures RequestsCarried(Step(w, e).s, out, es + [e])
  {
    hide Step, OnceKept, SubscriptionsKept, AuthenticationsKept;
    hide OnceOf, SubscriptionsOf, AuthenticationsOf, PublishingOnce, Subscribing, Authenticating, DisconnectAsked;
    QueuesByOthers(w, e);
    OneEvent(es, e);
    OnceMoves(OnceOf(out), w.s.ch.pub0, PublishingOnce(es));
    SubscriptionsMove(SubscriptionsOf(out), w.s.ch.subs, Subscribing(es));
    AuthenticationsMove(AuthenticationsOf(out), w.s.ch.auths, Authenticating(es));
  }

  lemma {:induction false} OnlyAckedAlways(ws: seq<World>, es: seq<Event>, i: nat)
    requires Run(ws, es) && i < |ws|
    ensures OnlyAcked(ws[i].s.inflight)
  {
    hide Step;
    if i > 0 {
      OnlyAckedAlways(ws, es, i - 1);
      StepKeepsAcked(ws[i - 1], es[i - 1]);
    }
  }

  /**
   * Over a whole run, QoS 0 PUBLISHes, SUBSCRIBEs and UNSUBSCRIBEs, and AUTHs come out in the order in which they were
   * asked for, each once and with the content asked for; what has not come out still waits.
   */
  lemma {:induction false} RequestsAlwaysCarried(ws: seq<World>, es: seq<Event>, i: nat)
    requires Run(ws, es) && i < |ws|
    ensures RequestsCarried(ws[i].s, Emitted(ws, es, i), es[..i])
  {
    hide Step, RequestsCarried, NextPacket, QueuesMove, PingsMove;
    if i == 0 {
      NothingCarried(ws[0].s);
      assert es[..0] == [];
    } else {
      RequestsAlwaysCarried(ws, es, i - 1);
      OnlyAckedAlways(ws, es, i - 1);
      var w, e, out := ws[i - 1], es[i - 1], Emitted(ws, es, i - 1);
      assert es[..i] == es[..i - 1] + [e];
      if e.Next? {
        StepMoves(w, e);
        CarriedByNext(w.s, ws[i].s, out, Given(w, e), es[..i - 1], e);
      } else {
        CarriedByOthers(w, e, out, es[..i - 1]);
      }
      assert out + [] == out;
    }
  }

  lemma NothingCarried(s: State)
    requires s.ch == NO_REQUESTS
    ensures RequestsCarried(s, [], [])
  {
    hide SameMessage, SameSubscription;
  }

  /** A DISCONNECT that is given out is the one that the application asked for on this connection. */
  lemma DisconnectIsAskedFor(ws: seq<World>, es: seq<Event>, i: nat)
    requires Run(ws, es) && i < |es|
    ensures var packet := Given(ws[i], es[i]);
      packet.Some? && IsDisconnectPacket(packet.value) ==> DisconnectAsked(es[..i]) == Some(packet.value.packet.disconnect)
  {
    hide Step, NextPacket, PingsMove;
    RequestsAlwaysCarried(ws, es, i);
    OnlyAckedAlways(ws, es, i);
    if es[i].Next? {
      StepMoves(ws[i], es[i]);
    }
  }

  // --- QoS 1 PUBLISHes ---

  lemma RequestsByStep(w: World, e: Event)
    requires Enabled(w, e)
    ensures var before, after := w.outlog.requests, Step(w, e).outlog.requests;
      if e.SubmitPublish? then
        && |after| == |before| + 1 && before <= after
        && var r := after[|before|];
          r.topic == e.topic && r.payload == e.payload && r.retain == e.retain && r.properties == e.properties
      else after == before
  {
    hide NextPacket, CompletePublish;
  }

  ghost predicate RequestsAre(requests: seq<PublishRequest>, asked: seq<Event>)
    requires forall n :: 0 <= n < |asked| ==> asked[n].SubmitPublish?
  {
    && |requests| == |asked|
    && forall n :: 0 <= n < |requests| ==>
      && requests[n].topic == asked[n].topic && requests[n].payload == asked[n].payload
      && requests[n].retain == asked[n].retain && requests[n].properties == asked[n].properties
  }

  lemma {:induction false} RequestsAreEvents(ws: seq<World>, es: seq<Event>, i: nat)
    requires Run(ws, es) && i < |ws|
    ensures RequestsAre(ws[i].outlog.requests, Publishing(es[..i]))
  {
    hide Step;
    if i > 0 {
      RequestsAreEvents(ws, es, i - 1);
      var before := es[..i - 1];
      assert es[..i] == before + [es[i - 1]] && es[..i][..i - 1] == before;
      RequestsByStep(ws[i - 1], es[i - 1]);
    }
  }

  /**
   * In every run, the k-th QoS 1 PUBLISH given out is that of the n-th QoS 1 publish request, with the topic, payload,
   * retain flag and properties that the application gave, and with DUP set exactly if that request was given out before.
   */
  lemma PublishAsAskedFor(ws: seq<World>, es: seq<Event>, i: nat, k: nat)
    requires Run(ws, es) && i < |ws| && k < |ws[i].outlog.returned|
    requires forall j :: 0 <= j < i ==> KindMatches(ws[j].s, es[j]) && NotBeforeReplay(ws[j].s, es[j])
    ensures var h, asked := ws[i].outlog, Publishing(es[..i]); var n, p := h.returned[k].notifier, h.returned[k].publish;
      && n < |asked| && n < |h.leases|
      && p.topic == asked[n].topic && p.payload == asked[n].payload
      && p.retain == asked[n].retain && p.properties == asked[n].properties
      && p.delivery == Acked(h.leases[n], exists j :: 0 <= j < k && h.returned[j].notifier == n)
  {
    hide Step, Run;
    RequestsAreEvents(ws, es, i);
    DupMarksRepeats(ws, es, i, k);
  }

  // --- Acknowledgements ---

  /** The step gives this answer to the PUBLISH with this token: what the application says, or success if it says nothing. */
  ghost predicate Gives(w: World, e: Event, serial: nat, p: PubAck) {
    match e
    case UseToken(j, reason, ack) => j < |w.tokens| && w.tokens[j].serial == serial && p == PubAck(w.tokens[j].id, reason, ack)
    case DropToken(j) => j < |w.tokens| && w.tokens[j].serial == serial && p == PubAck(w.tokens[j].id, 0x00, PubAckProperties(None, []))
    case InPublish(m, gone) =>
      && gone && m.delivery.Acked? && m.delivery.id !in Ids(w.s.tracker) && w.s.issued == serial
      && p == PubAck(m.delivery.id, 0x00, PubAckProperties(None, []))
    case _ => false
  }

  lemma AnswersElsewhere(w: World, e: Event)
    requires Enabled(w, e) && !e.UseToken? && !e.DropToken? && !e.InPublish?
    ensures Step(w, e).inlog.answers == w.inlog.answers
  {
    hide NextPacket, CompletePublish;
  }

  /** What a step adds to the answers, if anything. */
  lemma AnswerAdded(w: World, e: Event)
    requires Enabled(w, e)
    ensures match e
      case UseToken(j, reason, ack) =>
        Step(w, e).inlog.answers == w.inlog.answers[w.tokens[j].serial := PubAck(w.tokens[j].id, reason, ack)]
      case DropToken(j) =>
        Step(w, e).inlog.answers == w.inlog.answers[w.tokens[j].serial := PubAck(w.tokens[j].id, 0x00, PubAckProperties(None, []))]
      case InPublish(m, gone) =>
        Step(w, e).inlog.answers ==
          if gone && m.delivery.Acked? && m.delivery.id !in Ids(w.s.tracker) then
            w.inlog.answers[w.s.issued := PubAck(m.delivery.id, 0x00, PubAckProperties(None, []))]
          else w.inlog.answers
      case _ => Step(w, e).inlog.answers == w.inlog.answers
  {
    if !e.UseToken? && !e.DropToken? && !e.InPublish? {
      AnswersElsewhere(w, e);
    }
  }

  lemma AnswersByStep(w: World, e: Event, n: nat)
    requires Enabled(w, e)
    ensures var before, after := w.inlog.answers, Step(w, e).inlog.answers;
      && (n in after && !(n in before && before[n] == after[n]) ==> Gives(w, e, n, after[n]))
      && (forall p :: Gives(w, e, n, p) ==> n in after && after[n] == p)
      && ((forall p :: !Gives(w, e, n, p)) && n in before ==> n in after && after[n] == before[n])
  {
    hide Step;
    AnswerAdded(w, e);
    match e {
      case UseToken(j, reason, ack) =>
        assert w.tokens[j].serial == n ==> Gives(w, e, n, PubAck(w.tokens[j].id, reason, ack));
      case DropToken(j) =>
        assert w.tokens[j].serial == n ==> Gives(w, e, n, PubAck(w.tokens[j].id, 0x00, PubAckProperties(None, [])));
      case InPublish(m, gone) =>
        assert gone && m.delivery.Acked? && m.delivery.id !in Ids(w.s.tracker) && w.s.issued == n ==>
          Gives(w, e, n, PubAck(m.delivery.id, 0x00, PubAckProperties(None, [])));
      case _ =>
    }
  }

  /** Every answer on record was given by a step of the run. */
  lemma {:induction false} AnswersAreGiven(ws: seq<World>, es: seq<Event>, i: nat, n: nat)
    requires Run(ws, es) && i < |ws| && n in ws[i].inlog.answers
    ensures exists k :: 0 <= k < i && Gives(ws[k], es[k], n, ws[i].inlog.answers[n])
  {
    hide Step, Gives;
    if i > 0 {
      AnswersByStep(ws[i - 1], es[i - 1], n);
      var before := ws[i - 1].inlog.answers;
      if n in before && before[n] == ws[i].inlog.answers[n] {
        AnswersAreGiven(ws, es, i - 1, n);
      } else {
        assert Gives(ws[i - 1], es[i - 1], n, ws[i].inlog.answers[n]);
      }
    }
  }

  /** No token is answered for twice. */
  lemma GivenOnce(w: World, e: Event, n: nat, p: PubAck)
    requires AcksRight(w) && Gives(w, e, n, p)
    ensures n !in w.inlog.answers
  {
    hide Owned;
  }

  lemma {:induction false} AnswerStays(ws: seq<World>, es: seq<Event>, k: nat, i: nat, n: nat, p: PubAck)
    requires Run(ws, es) && k < i < |ws| && Gives(ws[k], es[k], n, p)
    ensures n in ws[i].inlog.answers && ws[i].inlog.answers[n] == p
    decreases i
  {
    hide Step, Gives, AcksRight;
    AnswersByStep(ws[i - 1], es[i - 1], n);
    if i - 1 > k {
      AnswerStays(ws, es, k, i - 1, n, p);
      AcksAlwaysRight(ws, es, i - 1);
      var w, e := ws[i - 1], es[i - 1];
      forall q | Gives(w, e, n, q)
        ensures false
      {
        GivenOnce(w, e, n, q);
      }
    }
  }

  /**
   * The m-th PUBACK of a connection carries the identifier of the m-th PUBLISH received on it, and the reason and
   * properties that the application gave when it used that PUBLISH's token; success and none if the token was dropped.
   */
  lemma AcknowledgedAsAnswered(ws: seq<World>, es: seq<Event>, i: nat, m: nat)
    requires Run(ws, es) && i < |ws| && ws[i].s.link.connected && m < |ws[i].inlog.acked|
    ensures m < |ws[i].inlog.received|
    ensures exists k :: 0 <= k < i && Gives(ws[k], es[k], ws[i].inlog.received[m].serial, ws[i].inlog.acked[m])
  {
    hide Step, Gives;
    AcknowledgedInOrder(ws, es, i);
    AnswersAreGiven(ws, es, i, ws[i].inlog.received[m].serial);
  }

  /** And conversely: whatever is answered through that token is what comes out. */
  lemma AnswerComesOut(ws: seq<World>, es: seq<Event>, k: nat, i: nat, m: nat, p: PubAck)
    requires Run(ws, es) && k < i < |ws| && ws[i].s.link.connected
    requires m < |ws[i].inlog.acked| && m < |ws[i].inlog.received| && Gives(ws[k], es[k], ws[i].inlog.received[m].serial, p)
    ensures ws[i].inlog.acked[m] == p
  {
    hide Step, Gives;
    AcknowledgedInOrder(ws, es, i);
    AnswerStays(ws, es, k, i, ws[i].inlog.received[m].serial, p);
  }

  /** The identifiers of the QoS 1 PUBLISHes that arrived on this connection, but for those refused. */
  function Arrived(ws: seq<World>, es: seq<Event>, i: nat): seq<PacketId>
    requires i <= |es| && i <= |ws|
  {
    if i == 0 then []
    else
      var w, e := ws[i - 1], es[i - 1];
      if Begins(e) then []
      else if e.InPublish? && e.publish.delivery.Acked? && e.publish.delivery.id !in Ids(w.s.tracker) then
        Arrived(ws, es, i - 1) + [e.publish.delivery.id]
      else Arrived(ws, es, i - 1)
  }

  lemma ReceivedByStep(w: World, e: Event)
    requires Enabled(w, e)
    ensures var before, after := w.inlog.received, Step(w, e).inlog.received;
      if Begins(e) then after == []
      else if e.InPublish? && e.publish.delivery.Acked? && e.publish.delivery.id !in Ids(w.s.tracker) then
        |after| == |before| + 1 && before <= after && after[|before|].id == e.publish.delivery.id
      else after == before
  {
    hide NextPacket, CompletePublish;
  }

  /** The PUBLISHes that are acknowledged in order are those that arrived, in the order in which they arrived. */
  lemma {:induction false} ReceivedAsArrived(ws: seq<World>, es: seq<Event>, i: nat)
    requires Run(ws, es) && i < |ws|
    ensures |ws[i].inlog.received| == |Arrived(ws, es, i)|
    ensures forall m :: 0 <= m < |ws[i].inlog.received| ==> ws[i].inlog.received[m].id == Arrived(ws, es, i)[m]
  {
    hide Step;
    if i > 0 {
      ReceivedAsArrived(ws, es, i - 1);
      ReceivedByStep(ws[i - 1], es[i - 1]);
    }
  }

  // --- How requests are resolved ---

  /** The expiry interval that the end of the connection goes by. */
  function IntervalAt(w: World, e: Event): SessionExpiry {
    if e.Leave? && e.disconnect.properties.sessionExpiry.Some? then e.disconnect.properties.sessionExpiry.value else w.agreed
  }

  /** The step tells the application how its request ended: with the server's PUBACK, or cancelled because the session is gone. */
  ghost predicate Tells(w: World, e: Event, notice: Notice) {
    && notice.notifier in Holders(w.s.inflight.publishes)
    && match notice.resolution
       case Completed(p) =>
         && e == InPubAck(p)
         && exists x :: x in w.s.inflight.publishes && x.id == p.id && x.value.notifier == notice.notifier
       case Cancelled =>
         || ((e.Leave? || e.Lose?) && IntervalAt(w, e) == Duration(0))
         || (Begins(e) && !e.connack.reason.sessionPresent)
  }

  lemma ExpiryTells(publishes: seq<Entry<Sent>>, m: nat)
    requires m < |publishes|
    ensures Cancellations(publishes)[m].resolution == Cancelled && Cancellations(publishes)[m].notifier in Holders(publishes)
  {
    assert Holders(publishes)[m] == publishes[m].value.notifier;
  }

  lemma NoticesElsewhere(w: World, e: Event)
    requires Enabled(w, e) && !e.InPubAck? && !e.Leave? && !e.Lose? && !Begins(e)
    ensures Step(w, e).s.notices == w.s.notices
  {
    hide StepNext;
    if Elsewhere(e) {
      ElsewhereKeeps(w, e);
    } else if e.Next? {
      hide NextPacket;
      StepNextState(w, e.due);
      var kind := NextKind(w.s, e.due);
    }
  }

  lemma PubAckTells(w: World, puback: PubAck)
    ensures var before, after := w.s.notices, CompletePublish(w.s, puback).0.notices;
      && before <= after
      && forall m :: |before| <= m < |after| ==> Tells(w, InPubAck(puback), after[m])
  {
    var f := w.s.inflight.publishes;
    var i := Find(f, puback.id);
    if i < |f| {
      assert f[i] in f && Holders(f)[i] == f[i].value.notifier;
    }
  }

  lemma EndTells(w: World, e: Event)
    requires Enabled(w, e) && Rested(w) && (e.Leave? || e.Lose? || Begins(e))
    ensures var before, after := w.s.notices, Step(w, e).s.notices;
      && before <= after
      && forall m :: |before| <= m < |after| ==> Tells(w, e, after[m])
  {
    var before, after, f := w.s.notices, Step(w, e).s.notices, w.s.inflight.publishes;
    if after != before {
      assert after == before + Cancellations(f);
      forall m | |before| <= m < |after|
        ensures Tells(w, e, after[m])
      {
        ExpiryTells(f, m - |before|);
      }
    }
  }

  /** Every resolution was told by a step: a PUBACK of the server for that request, or the end of the session. */
  lemma {:induction false} ResolvedAsTold(ws: seq<World>, es: seq<Event>, i: nat, m: nat)
    requires Run(ws, es) && i < |ws| && m < |ws[i].s.notices|
    ensures exists k :: 0 <= k < i && Tells(ws[k], es[k], ws[i].s.notices[m])
  {
    hide Step, Tells, CompletePublish, Rested;
    if i > 0 {
      var w, e := ws[i - 1], es[i - 1];
      if e.InPubAck? {
        PubAckTells(w, e.puback);
        PubAckStep(w, e.puback);
      } else if e.Leave? || e.Lose? || Begins(e) {
        AlwaysRested(ws, es, i - 1);
        EndTells(w, e);
      } else {
        NoticesElsewhere(w, e);
      }
      if m < |w.s.notices| {
        ResolvedAsTold(ws, es, i - 1, m);
      }
    }
  }

  lemma PubAckStep(w: World, puback: PubAck)
    requires w.s.link.connected
    ensures Step(w, InPubAck(puback)).s == CompletePublish(w.s, puback).0
  {
    hide CompletePublish;
  }

  // --- Intervals ---

  /** The expiry interval in force: the CONNACK's or else the CONNECT's, and then that of the application's DISCONNECT. */
  function ExpiryBy(es: seq<Event>): SessionExpiry {
    if es == [] then Duration(0)
    else
      var e, before := es[|es| - 1], ExpiryBy(es[..|es| - 1]);
      match e
      case Leave(d) => (match d.properties.sessionExpiry case Some(x) => x case None => before)
      case InConnAck(connack, asked, _) =>
        if Begins(e) then (match connack.sessionExpiry case Some(x) => x case None => asked.expiry) else before
      case _ => before
  }

  /** The keep alive in force: the CONNACK's or else the CONNECT's, and none without a connection. */
  function KeepAliveBy(es: seq<Event>): KeepAlive {
    if es == [] then Off
    else
      var e, before := es[|es| - 1], KeepAliveBy(es[..|es| - 1]);
      match e
      case Leave(_) => Off
      case Lose => Off
      case InConnAck(connack, asked, _) =>
        if Begins(e) then (match connack.serverKeepAlive case Some(x) => x case None => asked.keepAlive) else before
      case _ => before
  }

  lemma LinkByStep(w: World, e: Event)
    requires Enabled(w, e)
    ensures var before, after := w.s.link, Step(w, e).s.link;
      match e
      case Leave(d) =>
        && after.keepAlive == Off && !after.connected
        && after.expiry == (match d.properties.sessionExpiry case Some(x) => x case None => before.expiry)
      case Lose => after.keepAlive == Off && after.expiry == before.expiry && !after.connected
      case InConnAck(connack, asked, _) =>
        if Begins(e) then
          && after.connected && after.epoch == before.epoch + 1
          && after.expiry == (match connack.sessionExpiry case Some(x) => x case None => asked.expiry)
          && after.keepAlive == (match connack.serverKeepAlive case Some(x) => x case None => asked.keepAlive)
        else after == before
      case _ => after == before
  {
    hide StepNext, CompletePublish;
    if Elsewhere(e) {
      ElsewhereKeeps(w, e);
    } else if e.Next? {
      StepNextState(w, e.due);
      NextKeepsLink(w.s, e.due);
    } else if e.InPubAck? {
      LinkKept(w.s, e.puback);
    }
  }

  /** The intervals that the session goes by are those of the events. */
  lemma {:induction false} IntervalsAsAgreed(ws: seq<World>, es: seq<Event>, i: nat)
    requires Run(ws, es) && i < |ws|
    ensures ws[i].s.link.expiry == ws[i].agreed == ExpiryBy(es[..i]) && ws[i].s.link.keepAlive == KeepAliveBy(es[..i])
  {
    hide Step, Rested;
    AlwaysRested(ws, es, i);
    RestedAgrees(ws[i]);
    if i > 0 {
      IntervalsAsAgreed(ws, es, i - 1);
      assert es[..i][..i - 1] == es[..i - 1];
      LinkByStep(ws[i - 1], es[i - 1]);
    }
  }

  lemma RestedAgrees(w: World)
    requires Rested(w)
    ensures w.s.link.expiry == w.agreed
  {
  }

  // --- Refusals ---

  /** A CONNACK is refused exactly if its authentication method is not the one asked for, where one has to be given. */
  lemma ConnAckRefused(s: State, connack: ConnAck, asked: Asked, lenient: bool)
    ensures IncomingConnAck(s, connack, asked, lenient).1 == Failure(AuthenticationMethodMismatch) <==>
      match asked.scheme
      case None => connack.authentication.Some?
      case Some(name) =>
        && connack.reason.Accepted?
        && (match connack.authentication case None => !lenient case Some(a) => a.scheme != name)
    ensures IncomingConnAck(s, connack, asked, lenient).1.Failure? ==> IncomingConnAck(s, connack, asked, lenient).0 == s
    ensures connack.reason.Refused? ==> IncomingConnAck(s, connack, asked, lenient).0 == s
  {
  }

  /** An AUTH is accepted exactly if a reauthentication is under way, by that method, and the server goes on or is done. */
  lemma AuthRefused(s: State, auth: Auth, lenient: bool)
    ensures var (t, r) := IncomingAuth(s, auth, lenient);
      && (r.Success? <==>
        && s.inflight.auth.Some? && !auth.reason.ReAuthenticate?
        && (match auth.authentication
            case None => lenient && auth.reason.AuthSuccess?
            case Some(a) => a.scheme == s.inflight.auth.value.0))
      && t == if r.Success? then s.(inflight := s.inflight.(auth := None)) else s
  {
  }

  /** An acknowledgement is refused exactly if no operation of its kind is in flight with its identifier. */
  lemma AckRefused(s: State, id: PacketId, puback: PubAck)
    ensures CompleteSubscribe(s, id).1.Failure? <==> id !in s.inflight.subscribes
    ensures CompleteUnsubscribe(s, id).1.Failure? <==> id !in s.inflight.unsubscribes
    ensures CompletePublish(s, puback).1.Failure? <==> forall x :: x in s.inflight.publishes ==> x.id != puback.id
  {
    var f := s.inflight.publishes;
    var i := Find(f, puback.id);
    assert i < |f| ==> f[i] in f;
  }

  /** A PINGRESP answers the oldest PINGREQ in flight and nothing else; without one it is ignored. */
  lemma PingRespAnswersOldest(s: State, oldest: Option<nat>, others: seq<Option<nat>>)
    ensures s.inflight.pings == [] ==> IncomingPingResp(s) == s
    ensures s.inflight.pings == [oldest] + others ==> IncomingPingResp(s) == s.(inflight := s.inflight.(pings := others))
  {
  }

  /** The PINGREQs of this connection that have not been answered. */
  function Unanswered(ws: seq<World>, es: seq<Event>, i: nat): nat
    requires i <= |es| && i <= |ws|
  {
    if i == 0 then 0
    else
      var e, before := es[i - 1], Unanswered(ws, es, i - 1);
      if e.Leave? || e.Lose? then 0
      else if e.InPingResp? then if before == 0 then 0 else before - 1
      else if Given(ws[i - 1], e) == Some(Control(PingReqPacket)) then before + 1
      else before
  }

  lemma PingsElsewhere(w: World, e: Event)
    requires Enabled(w, e) && !e.Next? && !e.Leave? && !e.Lose? && !e.InPingResp?
    ensures Step(w, e).s.inflight.pings == w.s.inflight.pings
  {
    hide CompletePublish;
    if e.InPubAck? {
      PubAckKeepsPings(w.s, e.puback);
    }
  }

  lemma PubAckKeepsPings(s: State, puback: PubAck)
    ensures CompletePublish(s, puback).0.inflight.pings == s.inflight.pings
  {
  }

  lemma PingsByStep(w: World, e: Event)
    requires Enabled(w, e) && OnlyAcked(w.s.inflight)
    ensures var before, after := |w.s.inflight.pings|, |Step(w, e).s.inflight.pings|;
      if e.Leave? || e.Lose? then after == 0
      else if e.InPingResp? then after == if before == 0 then 0 else before - 1
      else after == if Given(w, e) == Some(Control(PingReqPacket)) then before + 1 else before
  {
    hide NextPacket, CompletePublish;
    if e.Next? {
      PingsByNext(w, e);
    } else if !e.Leave? && !e.Lose? && !e.InPingResp? {
      PingsElsewhere(w, e);
    }
  }

  lemma PingsByNext(w: World, e: Event)
    requires Enabled(w, e) && OnlyAcked(w.s.inflight) && e.Next?
    ensures |Step(w, e).s.inflight.pings| == |w.s.inflight.pings| + if Given(w, e) == Some(Control(PingReqPacket)) then 1 else 0
  {
    hide Step, NextPacket, QueuesMove;
    StepMoves(w, e);
  }

  /** What is in flight of PINGREQs is what was given out on this connection and has not been answered. */
  lemma {:induction false} PingsAreCounted(ws: seq<World>, es: seq<Event>, i: nat)
    requires Run(ws, es) && i < |ws|
    ensures |ws[i].s.inflight.pings| == Unanswered(ws, es, i)
  {
    hide NextPacket, Step, OnlyAcked;
    if i > 0 {
      PingsAreCounted(ws, es, i - 1);
      OnlyAckedAlways(ws, es, i - 1);
      PingsByStep(ws[i - 1], es[i - 1]);
    }
  }

  // --- Nothing waits while nothing is sent ---

  /** The session has nothing to send only if nothing is to be replayed and no request waits that could be served. */
  lemma IdleOnlyIfNothingWaits(s: State, due: bool)
    requires NextPacket(s, due).1.NothingToSend?
    ensures s.inflight.replay == [] && !s.ch.disconnect.Requested? && s.ch.auths == [] && s.ch.pings == [] && s.ch.pub0 == []
    ensures !(due && s.link.keepAlive.Every?)
    ensures (s.ch.subs == [] && s.ch.pub1 == []) || forall x: PacketId :: x <= s.pool.max ==> x in s.pool.leased
  {
    hide P.Lease, Settle, SkipStale, NextRequest;
    LoopIsOnePass(s, due);
    P.LeaseIsFirstFree(s.pool);
  }
}
