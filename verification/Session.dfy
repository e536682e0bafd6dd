/**
 * The session and its acknowledgement tokens as the objects they are: `Session` of `src/client/session.rs` and
 * `PubAckToken` of `src/client/token/acknowledgement.rs`. Each method does to the object what its function in
 * `SessionState` does to the value.
 */
module Session {
  import opened Wrappers
  import opened Bytes
  import opened Packets
  import P = PkidPool
  import opened OrderedMap
  import opened SessionState

  // --- Tokens ---

  /** The channel from tokens to the session; it is closed when the session is gone. */
  class AckChannel {
    var open: bool
    var queue: seq<AckRequest>

    constructor ()
      ensures open && queue == []
    {
      open, queue := true, [];
    }
  }

  /** What one token can have done to its channel: one request, if anyone is there to receive it. */
  ghost function Arrived(open: bool, queue: seq<AckRequest>, a: AckRequest): seq<AckRequest> {
    if open then queue + [a] else queue
  }

  class PubAckToken {
    const serial: nat
    const id: PacketId
    const epoch: nat
    const tx: AckChannel
    var triggered: bool

    ghost function Value(): Token {
      Token(serial, id, epoch)
    }

    constructor (serial: nat, id: PacketId, epoch: nat, tx: AckChannel)
      ensures Value() == Token(serial, id, epoch) && this.tx == tx && !triggered
    {
      this.serial, this.id, this.epoch, this.tx := serial, id, epoch, tx;
      triggered := false;
    }

    method InnerSend(reason: byte, properties: PubAckProperties) returns (ok: bool)
      modifies tx`queue
      ensures ok == tx.open
      ensures tx.queue == Arrived(tx.open, old(tx.queue), AckRequest(serial, PubAck(id, reason, properties), epoch))
    {
      ok := tx.open;
      if ok {
        tx.queue := tx.queue + [AckRequest(serial, PubAck(id, reason, properties), epoch)];
      }
    }

    /** Runs when the token goes out of scope. */
    method Drop()
      modifies tx`queue
      ensures tx.queue ==
        if triggered then old(tx.queue)
        else Arrived(tx.open, old(tx.queue), AckRequest(serial, PubAck(id, 0x00, PubAckProperties(None, [])), epoch))
    {
      if !triggered {
        var _ := InnerSend(SUCCESS, NO_PUBACK_PROPERTIES);
      }
    }

    /** Takes the token and answers through it. The token is dropped on the way out, and this adds no second answer. */
    method Send(reason: byte, properties: PubAckProperties) returns (ok: bool)
      requires !triggered
      modifies this`triggered, tx`queue
      ensures ok == tx.open
      ensures tx.queue == Arrived(tx.open, old(tx.queue), AckRequest(serial, PubAck(id, reason, properties), epoch))
    {
      ok := InnerSend(reason, properties);
      if ok {
        triggered := true;
      }
      Drop();
    }
  }

  // --- The session ---

  datatype CompletedOperation = SubscribeDone(id: PacketId) | UnsubscribeDone(id: PacketId) | PublishDone(puback: PubAck)

  function Complete(s: State, op: CompletedOperation): (State, Result<(), ProtocolError>) {
    match op
    case SubscribeDone(id) => CompleteSubscribe(s, id)
    case UnsubscribeDone(id) => CompleteUnsubscribe(s, id)
    case PublishDone(puback) => CompletePublish(s, puback)
  }

  class Session {
    /** All channels but that of the acknowledgements, which is shared with the tokens. */
    var ch: Channels
    const ackRx: AckChannel
    const pool: P.PkidPool
    var inflight: Inflight
    var tracker: Tracker
    var link: Link
    var notices: seq<Notice>
    var issued: nat

    ghost predicate Valid()
      reads this, pool
    {
      pool.Valid() && ch.acks == []
    }

    ghost function Inputs(): Channels
      reads this, ackRx
    {
      ch.(acks := ackRx.queue)
    }

    ghost function Value(): State
      reads this, pool, ackRx
      requires Valid()
    {
      State(Inputs(), pool.Value(), inflight, tracker, link, notices, issued)
    }

    constructor (max: PacketId)
      ensures Valid() && Value() == NewSession(max) && fresh(pool) && fresh(ackRx) && ackRx.open
    {
      ch := NO_REQUESTS;
      ackRx := new AckChannel();
      pool := new P.PkidPool(max);
      inflight, tracker := NOTHING_INFLIGHT, [];
      link := Link(false, 0, Duration(0), Off);
      notices, issued := [], 0;
    }

    // --- Outgoing packets ---

    method PollRest(due: bool) returns (r: Option<Request>)
      requires Valid() && ackRx.queue == []
      modifies this`ch, pool
      ensures Valid()
      ensures (Inputs(), pool.Value(), r) == SessionState.PollRest(old(Inputs()), old(pool.Value()), due)
    {
      if ch.auths != [] {
        r := Some(ToReauthenticate(ch.auths[0]));
        ch := ch.(auths := ch.auths[1..]);
        return;
      }
      if ch.pings != [] {
        r := Some(ToPing(Some(ch.pings[0])));
        ch := ch.(pings := ch.pings[1..]);
        return;
      }
      P.LeaseIsFirstFree(pool.Value());
      if ch.subs != [] {
        var id, _ := pool.LeaseNext();
        if id.Some? {
          r := Some(Subscription(ch.subs[0], id.value));
          ch := ch.(subs := ch.subs[1..]);
          return;
        }
      }
      if ch.pub0 != [] {
        r := Some(PublishOnce(ch.pub0[0]));
        ch := ch.(pub0 := ch.pub0[1..]);
        return;
      }
      if ch.pub1 != [] {
        var id, _ := pool.LeaseNext();
        if id.Some? {
          r := Some(PublishAcked(ch.pub1[0], id.value));
          ch := ch.(pub1 := ch.pub1[1..]);
          return;
        }
      }
      r := if due then Some(ToPing(None)) else None;
    }

    method Poll(due: bool) returns (r: Option<Request>)
      requires Valid()
      modifies this`ch, pool, ackRx`queue
      ensures Valid()
      ensures (Inputs(), pool.Value(), r) == PollRequest(old(Inputs()), old(pool.Value()), due)
    {
      if ch.disconnect.Requested? {
        r := Some(ToDisconnect(ch.disconnect.disconnect));
        ch := ch.(disconnect := NoChannel);
        return;
      }
      if ch.disconnect.SenderDropped? {
        ch := ch.(disconnect := NoChannel);
      }
      if ackRx.queue != [] {
        r := Some(ToAcknowledge(ackRx.queue[0]));
        ackRx.queue := ackRx.queue[1..];
        return;
      }
      r := PollRest(due);
    }

    method NextOutgoingRequest(due: bool) returns (next: Next)
      requires Valid()
      modifies this`ch, this`tracker, pool, ackRx`queue
      ensures Valid()
      ensures (Value(), next) == NextRequest(old(Value()), due)
    {
      hide PollRequest, Find, Insert, P.PkidPool.Valid;
      while true
        invariant Valid()
        invariant NextRequest(Value(), due) == NextRequest(old(Value()), due)
        decreases |ackRx.queue|, |tracker|
      {
        ghost var before := Value();
        if HeadReady(tracker) {
          var ack := tracker[0].value.value;
          tracker := tracker[1..];
          if ack.epoch == link.epoch {
            return Chosen(ToAcknowledge(ack));
          }
        } else {
          var request := Poll(due && link.keepAlive.Every?);
          if request.None? {
            return Idle;
          }
          if !request.value.ToAcknowledge? {
            return Chosen(request.value);
          }
          AckShortens(before.ch, before.pool, due && link.keepAlive.Every?);
          var ack := request.value.ack;
          if ack.epoch == link.epoch {
            if Find(tracker, ack.puback.id) == |tracker| {
              return Forged;
            }
            tracker := Insert(tracker, ack.puback.id, Some(ack));
          }
        }
      }
    }

    /** Turns a request into a packet and records what the packet awaits. */
    method Record(request: Request) returns (packet: Outgoing)
      modifies this`inflight
      ensures (inflight, packet) == Register(old(inflight), request)
      ensures Carries(packet, request)
    {
      match request {
        case ToDisconnect(d) => packet := Control(DisconnectPacket(d));
        case ToAcknowledge(ack) => packet := Control(PubAckPacket(ack.puback));
        case Subscription(ToSubscribe(n, to, subscriptionId, users), id) =>
          inflight := inflight.(subscribes := inflight.subscribes[id := n]);
          packet := Control(SubscribePacket(Subscribe(id, [to], subscriptionId, users)));
        case Subscription(ToUnsubscribe(n, filter, users), id) =>
          inflight := inflight.(unsubscribes := inflight.unsubscribes[id := n]);
          packet := Unsubscribe(id, filter, users);
        case PublishOnce(r) => packet := Control(PublishPacket(ToPublish(r, Once)));
        case PublishAcked(r, id) =>
          var p := ToPublish(r, Acked(id, false));
          inflight := inflight.(publishes := Insert(inflight.publishes, id, Sent(p, r.notifier)));
          packet := Control(PublishPacket(p));
        case ToReauthenticate(a) =>
          inflight := inflight.(auth := Some((a.authentication.scheme, a.notifier)));
          packet := Authenticate(a.authentication);
        case ToPing(n) =>
          inflight := inflight.(pings := inflight.pings + [n]);
          packet := Control(PingReqPacket);
      }
    }

    method NextOutgoingPacket(due: bool) returns (out: Output)
      requires Valid() && link.connected
      modifies this`ch, this`tracker, this`inflight, pool, ackRx`queue
      ensures Valid()
      ensures (Value(), out) == NextPacket(old(Value()), due)
    {
      if inflight.replay != [] {
        var p := WithDup(inflight.replay[0]);
        inflight := inflight.(replay := inflight.replay[1..]);
        return Sending(Control(PublishPacket(p)));
      }
      var next := NextOutgoingRequest(due);
      match next {
        case Idle => return NothingToSend;
        case Forged => return Panic;
        case Chosen(request) =>
          var packet := Record(request);
          return Sending(packet);
      }
    }

    // --- Incoming packets ---

    method CompleteInflight(op: CompletedOperation) returns (r: Result<(), ProtocolError>)
      requires Valid()
      modifies this`inflight, this`notices, pool
      ensures Valid()
      ensures (Value(), r) == Complete(old(Value()), op)
    {
      hide P.PkidPool.Valid, Find;
      match op {
        case SubscribeDone(id) =>
          var _ := pool.ReleaseId(id);
          assert id !in inflight.subscribes ==> inflight.subscribes - {id} == inflight.subscribes;
          if id !in inflight.subscribes {
            return Failure(UnexpectedPacket);
          }
          inflight := inflight.(subscribes := inflight.subscribes - {id});
        case UnsubscribeDone(id) =>
          var _ := pool.ReleaseId(id);
          assert id !in inflight.unsubscribes ==> inflight.unsubscribes - {id} == inflight.unsubscribes;
          if id !in inflight.unsubscribes {
            return Failure(UnexpectedPacket);
          }
          inflight := inflight.(unsubscribes := inflight.unsubscribes - {id});
        case PublishDone(puback) =>
          var _ := pool.ReleaseId(puback.id);
          var i := Find(inflight.publishes, puback.id);
          if i == |inflight.publishes| {
            return Failure(UnexpectedPacket);
          }
          notices := notices + [Notice(inflight.publishes[i].value.notifier, Completed(puback))];
          inflight := inflight.(publishes := Remove(inflight.publishes, puback.id));
      }
      return Success(());
    }

    method IncomingPublish(p: Publish, gone: bool) returns (r: Delivered, token: Option<PubAckToken>)
      requires Valid() && ackRx.open
      modifies this`tracker, this`issued, ackRx`queue
      ensures Valid()
      ensures (Value(), r) == SessionState.IncomingPublish(old(Value()), p, gone)
      ensures token.Some? <==> r.Handed?
      ensures token.Some? ==> fresh(token.value) && token.value.Value() == r.token && token.value.tx == ackRx && !token.value.triggered
    {
      match p.delivery {
        case Once => return NoToken, None;
        case Assured(_, _) => return Panicked, None;
        case Acked(id, _) =>
          if id in Ids(tracker) {
            return Panicked, None;
          }
          tracker := tracker + [Entry(id, None)];
          var made := new PubAckToken(issued, id, link.epoch, ackRx);
          issued := issued + 1;
          if gone {
            made.Drop();
            return NoToken, None;
          }
          return Handed(Token(made.serial, made.id, made.epoch)), Some(made);
      }
    }

    method IncomingAuth(packet: Auth, lenient: bool) returns (r: Result<(), ProtocolError>)
      requires Valid()
      modifies this`inflight
      ensures Valid()
      ensures (Value(), r) == SessionState.IncomingAuth(old(Value()), packet, lenient)
    {
      if inflight.auth.None? {
        return Failure(UnexpectedPacket);
      }
      var omitted := lenient && packet.reason.AuthSuccess? && packet.authentication.None?;
      if !omitted && !SchemeMatches(packet.authentication, Some(inflight.auth.value.0)) {
        return Failure(AuthenticationMethodMismatch);
      }
      if packet.reason.ReAuthenticate? {
        return Failure(UnexpectedPacket);
      }
      inflight := inflight.(auth := None);
      return Success(());
    }

    method IncomingPingResp()
      requires Valid()
      modifies this`inflight
      ensures Valid() && Value() == SessionState.IncomingPingResp(old(Value()))
    {
      if inflight.pings != [] {
        inflight := inflight.(pings := inflight.pings[1..]);
      }
    }

    method IncomingConnAck(connack: ConnAck, asked: Asked, lenient: bool) returns (r: Result<(), ProtocolError>)
      requires Valid()
      modifies this`ch, this`inflight, this`notices, this`link, pool
      ensures Valid()
      ensures (Value(), r) == SessionState.IncomingConnAck(old(Value()), connack, asked, lenient)
    {
      hide RefusesScheme, SessionState.SessionExpired, P.PkidPool.Valid;
      if RefusesScheme(connack, asked, lenient) {
        return Failure(AuthenticationMethodMismatch);
      }
      if connack.reason.Accepted? {
        if !connack.reason.sessionPresent {
          SessionExpired();
        }
        link := link.(epoch := link.epoch + 1);
        link := link.(expiry := Or(connack.sessionExpiry, asked.expiry));
        link := link.(keepAlive := Or(connack.serverKeepAlive, asked.keepAlive));
        link := link.(connected := true);
        ch := ch.(disconnect := Waiting);
      }
      return Success(());
    }

    // --- The end of a connection ---

    /** Releases, in any order, every identifier of a table. */
    method ReleaseAll(table: map<PacketId, nat>)
      requires Valid()
      modifies pool
      ensures Valid() && pool.Value() == old(pool.Value()).(leased := old(pool.leased) - table.Keys)
    {
      var left := table;
      while left != map[]
        invariant Valid() && left.Keys <= table.Keys
        invariant pool.Value() == old(pool.Value()).(leased := old(pool.leased) - (table.Keys - left.Keys))
        decreases left.Keys
      {
        var id :| id in left;
        var _ := pool.ReleaseId(id);
        left := left - {id};
      }
      assert table.Keys - left.Keys == table.Keys;
    }

    method Disconnected()
      requires Valid()
      modifies this`link, this`inflight, this`tracker, pool
      ensures Valid() && Value() == SessionState.Disconnected(old(Value()))
    {
      hide P.PkidPool.Valid;
      link := link.(connected := false, keepAlive := Off);
      ReleaseAll(inflight.subscribes);
      ReleaseAll(inflight.unsubscribes);
      tracker := [];
      var replay: seq<Publish> := [];
      while |replay| < |inflight.publishes|
        invariant |replay| <= |inflight.publishes| && replay == ReplayOf(inflight.publishes)[..|replay|]
      {
        replay := replay + [WithDup(inflight.publishes[|replay|].value.publish)];
      }
      inflight := inflight.(subscribes := map[], unsubscribes := map[], auth := None, pings := [], replay := replay);
    }

    method SessionExpired()
      requires Valid()
      modifies this`inflight, this`notices, pool
      ensures Valid() && Value() == SessionState.SessionExpired(old(Value()))
    {
      var publishes := inflight.publishes;
      var i := 0;
      while i < |publishes|
        invariant 0 <= i <= |publishes| && Valid() && inflight == old(inflight)
        invariant notices == old(notices) + Cancellations(publishes)[..i]
        invariant pool.Value() == old(pool.Value()).(leased := old(pool.leased) - Ids(publishes[..i]))
      {
        notices := notices + [Notice(publishes[i].value.notifier, Cancelled)];
        var _ := pool.ReleaseId(publishes[i].id);
        assert publishes[..i + 1] == publishes[..i] + [publishes[i]];
        IdsSnoc(publishes[..i], publishes[i]);
        i := i + 1;
      }
      assert publishes[..i] == publishes;
      inflight := inflight.(publishes := [], replay := []);
    }

    /** Both `server_disconnect` and `transport_disconnect`. */
    method ConnectionLost()
      requires Valid()
      modifies this`link, this`inflight, this`tracker, this`notices, pool
      ensures Valid() && Value() == SessionState.ConnectionLost(old(Value()))
    {
      Disconnected();
      if link.expiry == Duration(0) {
        SessionExpired();
      }
    }

    method ClientDisconnect(d: Disconnect)
      requires Valid()
      modifies this`link, this`inflight, this`tracker, this`notices, pool
      ensures Valid() && Value() == SessionState.ClientDisconnect(old(Value()), d)
    {
      Disconnected();
      if d.properties.sessionExpiry.Some? {
        link := link.(expiry := d.properties.sessionExpiry.value);
      }
      if link.expiry == Duration(0) {
        SessionExpired();
      }
    }
  }

  lemma AckShortens(ch: Channels, pool: P.Pool, due: bool)
    requires var r := PollRequest(ch, pool, due).2; r.Some? && r.value.ToAcknowledge?
    ensures |PollRequest(ch, pool, due).0.acks| < |ch.acks|
  {
  }

  lemma IdsSnoc<V>(m: seq<Entry<V>>, e: Entry<V>)
    ensures Ids(m + [e]) == Ids(m) + {e.id}
  {
    assert forall i :: 0 <= i < |m| ==> (m + [e])[i] == m[i];
    assert (m + [e])[|m|] == e;
  }
}
