/**
 * A connection as it runs: the event loop of `src/client.rs` over the session, the tokens that the application holds and
 * the network. It does what `EventLoop` says, and every execution is a trace of steps of the session in which exactly
 * one, the last, ends the connection.
 */
module Connection {
  import opened Wrappers
  import opened Packets
  import opened SessionState
  import opened Session
  import opened Runs
  import opened AckRuns
  import opened EventLoop
  import P = PkidPool

  // --- The connection ---

  /** The application holds exactly these tokens, none of them used. */
  ghost predicate Held(held: seq<PubAckToken>, tokens: seq<Token>, tx: AckChannel)
    reads held
  {
    && |held| == |tokens|
    && (forall i :: 0 <= i < |held| ==> held[i].Value() == tokens[i] && held[i].tx == tx && !held[i].triggered)
    && (forall i, j :: 0 <= i < j < |held| ==> held[i] != held[j])
  }

  lemma HeldRemove(held: seq<PubAckToken>, tokens: seq<Token>, tx: AckChannel, i: nat)
    requires Held(held, tokens, tx) && i < |held|
    ensures |held| == |tokens| && held[i].Value() == tokens[i] && held[i].tx == tx && !held[i].triggered
    ensures Held(held[..i] + held[i + 1..], tokens[..i] + tokens[i + 1..], tx) && held[i] !in held[..i] + held[i + 1..]
  {
  }

  lemma HeldAppend(held: seq<PubAckToken>, tokens: seq<Token>, tx: AckChannel, token: PubAckToken)
    requires Held(held, tokens, tx) && token !in held && token.tx == tx && !token.triggered
    ensures Held(held + [token], tokens + [token.Value()], tx)
  {
  }

  /** A connection, and the tokens that the application holds. */
  class Connection {
    const session: Session
    var held: seq<PubAckToken>
    var submitted: nat
    /** How often the network was written to or flushed. */
    var ios: nat
    /** The run so far. */
    ghost var w: World

    constructor (max: PacketId)
      ensures Follows() && w == NewWorld(max) && fresh(session) && fresh(session.pool) && fresh(session.ackRx) && held == []
    {
      session := new Session(max);
      held, submitted, ios := [], 0, 0;
      w := NewWorld(max);
    }

    /** The objects are in the state that the run has reached. */
    ghost predicate Follows()
      reads this, session, session.pool, session.ackRx, held
    {
      && session.Valid() && session.ackRx.open
      && w.s == session.Value()
      && submitted == |w.outlog.requests|
      && |held| == |w.tokens| && Held(held, w.tokens, session.ackRx)
    }

    /** A CONNACK arrives, and begins the connection if it is accepted. */
    method Connect(connack: ConnAck, asked: Asked, lenient: bool) returns (r: Result<(), ProtocolError>)
      requires Follows() && !w.s.link.connected
      modifies this`w, session`ch, session`inflight, session`notices, session`link, session.pool
      ensures Follows() && w == Step(old(w), InConnAck(connack, asked, lenient))
      ensures w.s.link.connected <==> Accepts(connack, asked, lenient)
    {
      hide P.PkidPool.Valid, Held, RefusesScheme, SessionState.SessionExpired;
      w := Step(w, InConnAck(connack, asked, lenient));
      r := session.IncomingConnAck(connack, asked, lenient);
    }

    /** The application makes a request. */
    method Submit(e: Event)
      requires Follows() && Enabled(w, e)
      requires e.SubmitPublish? || e.SubmitPublishOnce? || e.SubmitSubscription? || e.SubmitPing? || e.SubmitAuth?
        || e.AskDisconnect? || e.DropDisconnectHandle?
      modifies this`submitted, this`w, session`ch
      ensures Follows() && w == Step(old(w), e)
    {
      var ch := session.ch;
      w := Step(w, e);
      match e {
        case SubmitPublish(topic, payload, retain, properties) =>
          session.ch := ch.(pub1 := ch.pub1 + [PublishRequest(submitted, topic, payload, retain, properties)]);
          submitted := submitted + 1;
        case SubmitPublishOnce(r) => session.ch := ch.(pub0 := ch.pub0 + [r]);
        case SubmitSubscription(r) => session.ch := ch.(subs := ch.subs + [r]);
        case SubmitPing(n) => session.ch := ch.(pings := ch.pings + [n]);
        case SubmitAuth(r) => session.ch := ch.(auths := ch.auths + [r]);
        case AskDisconnect(d) => session.ch := ch.(disconnect := Requested(d));
        case DropDisconnectHandle => session.ch := ch.(disconnect := SenderDropped);
      }
    }

    /** The application uses a token, or lets it go out of scope. */
    method Answer(e: Event)
      requires Follows() && Enabled(w, e) && (e.UseToken? || e.DropToken?)
      modifies this`held, this`w, held, session.ackRx`queue
      ensures Follows() && w == Step(old(w), e)
      ensures forall i :: 0 <= i < |held| ==> held[i] in old(held)
    {
      hide P.PkidPool.Valid, Held;
      var i := e.index;
      var token := held[i];
      HeldRemove(held, w.tokens, session.ackRx, i);
      ghost var step := Step(w, e);
      held := held[..i] + held[i + 1..];
      if e.UseToken? {
        var _ := token.Send(e.reason, e.ack);
      } else {
        token.Drop();
      }
      w := step;
    }

    /** An acknowledgement of the server. */
    method TakeAck(e: Event) returns (r: Result<(), ProtocolError>)
      requires Follows() && Enabled(w, e) && (e.InSubAck? || e.InUnsubAck? || e.InPubAck?)
      modifies this`w, session`inflight, session`notices, session.pool
      ensures Follows() && w == Step(old(w), e) && w.s.link == old(w).s.link
      ensures r.Failure? <==> Rejects(old(w).s, e)
    {
      hide P.PkidPool.Valid, CompletePublish, CompleteSubscribe, CompleteUnsubscribe, Held;
      var op := if e.InSubAck? then SubscribeDone(e.id) else if e.InUnsubAck? then UnsubscribeDone(e.id) else PublishDone(e.puback);
      CompleteKeepsLink(w.s, op);
      w := w.(s := Complete(w.s, op).0);
      r := session.CompleteInflight(op);
    }

    /** A PINGRESP or an AUTH. */
    method TakeOther(e: Event) returns (r: Result<(), ProtocolError>)
      requires Follows() && Enabled(w, e) && (e.InPingResp? || e.InAuth?)
      modifies this`w, session`inflight
      ensures Follows() && w == Step(old(w), e) && w.s.link == old(w).s.link
      ensures r.Failure? <==> Rejects(old(w).s, e)
    {
      hide P.PkidPool.Valid, Held;
      w := Step(w, e);
      if e.InPingResp? {
        session.IncomingPingResp();
        return Success(());
      }
      r := session.IncomingAuth(e.authIn, e.lenient);
    }

    method TakePublish(p: Publish, gone: bool) returns (crashed: bool)
      requires Follows() && Enabled(w, InPublish(p, gone))
      modifies this`held, this`w, session`tracker, session`issued, session.ackRx`queue
      ensures forall i :: 0 <= i < |held| ==> held[i] in old(held) || fresh(held[i])
      ensures crashed <==> !NotReused(old(w).s, InPublish(p, gone))
      ensures crashed ==> w == old(w)
      ensures !crashed ==> Follows() && w == Step(old(w), InPublish(p, gone)) && w.s.link == old(w).s.link
    {
      hide P.PkidPool.Valid, Held, Step, SessionState.IncomingPublish, NotReused;
      PublishInStep(w, p, gone);
      w := Step(w, InPublish(p, gone));
      ghost var tokens := old(w).tokens;
      var r, token := session.IncomingPublish(p, gone);
      crashed := r.Panicked?;
      if token.Some? {
        assert token.value !in held;
        HeldAppend(held, tokens, session.ackRx, token.value);
        held := held + [token.value];
      }
    }

    /** Asks the session for its next packet. */
    method Emit(due: bool) returns (out: Output)
      requires Follows() && w.s.link.connected && AcksRight(w)
      modifies this`w, session`ch, session`tracker, session`inflight, session.pool, session.ackRx`queue
      ensures Follows() && w == Step(old(w), Next(due)) && AcksRight(w) && w.s.link.connected
      ensures out == NextPacket(old(w).s, due).1 && !out.Panic?
      ensures out.Sending? ==> w.outlog.outputs == old(w).outlog.outputs + [out.packet]
      ensures out.Sending? && !due ==> Backlog(w.s) < Backlog(old(w).s)
    {
      hide P.PkidPool.Valid, NextPacket, AcksRight, Backlog, Held;
      PacketConsumes(w.s);
      StepKeepsAcks(w, Next(due));
      NextNeverPanics(w, due);
      KeepsLink(w, due);
      w := Step(w, Next(due));
      out := session.NextOutgoingPacket(due);
    }
  
    /** Writes a packet and all that are ready after it, then flushes. Only a flushed DISCONNECT ends the connection. */
    method WriteOut(packet: Outgoing, io: nat -> bool) returns (ending: Option<Ending>, ghost es: seq<Event>)
      requires Follows() && w.s.link.connected && AcksRight(w)
      requires w.outlog.outputs != [] && w.outlog.outputs[|w.outlog.outputs| - 1] == packet
      modifies this`w, this`ios, session`ch, session`tracker, session`inflight, session.pool, session.ackRx`queue
      ensures Follows() && w.s.link.connected && AcksRight(w)
      ensures Outcome(es, w, ios, ending) == Written(old(w), packet, io, old(ios))
      ensures WroteOut(old(w), io, old(ios), Outcome(es, w, ios, ending))
    {
      hide AcksRight, Step, NextPacket, Backlog, Held, WroteOut, Written, Then, P.PkidPool.Valid;
      WritesAndFlushes(w, packet, io, ios);
      WrittenStays(w, packet, io, ios);
      ghost var all := Written(w, packet, io, ios);
      var op := Some(packet);
      es := [];
      ThenNothing(all);
      while op.Some?
        invariant Follows() && w.s.link.connected && AcksRight(w)
        invariant op.Some? ==> all == Then(es, Written(w, op.value, io, ios))
        invariant op.None? ==> all == Outcome(es, w, ios + 1, if io(ios) then None else Some(IoError))
        decreases if op.Some? then 1 + Backlog(w.s) else 0
      {
        ending, op := WriteOne(op.value, io);
        ThenOnly(es, [], w, ios, ending);
        if ending.Some? {
          return;
        }
        if op.Some? {
          ThenThen(es, [Next(false)], Written(w, op.value, io, ios));
        } else {
          ThenOnly(es, [Next(false)], w, ios + 1, if io(ios) then None else Some(IoError));
        }
        es := es + [Next(false)];
      }
      var flushed := Io(io);
      ending := if flushed then None else Some(IoError);
    }

    /** One turn: writes a packet, flushes if it is a DISCONNECT, and asks for the next. */
    method WriteOne(packet: Outgoing, io: nat -> bool) returns (ending: Option<Ending>, next: Option<Outgoing>)
      requires Follows() && w.s.link.connected && AcksRight(w)
      modifies this`w, this`ios, session`ch, session`tracker, session`inflight, session.pool, session.ackRx`queue
      ensures Follows() && w.s.link.connected && AcksRight(w)
      ensures var all := Written(old(w), packet, io, old(ios));
        if ending.Some? then all == Outcome([], w, ios, ending) && next.None?
        else if next.Some? then all == Then([Next(false)], Written(w, next.value, io, ios)) && Backlog(w.s) < Backlog(old(w).s)
        else all == Outcome([Next(false)], w, ios + 1, if io(ios) then None else Some(IoError))
    {
      hide AcksRight, Step, NextPacket, Backlog, Held, Written, P.PkidPool.Valid;
      WrittenNext(w, packet, io, ios);
      var written := Io(io);
      if !written {
        return Some(IoError), None;
      }
      if IsDisconnect(packet) {
        var flushed := Io(io);
        return if flushed then Some(Application(packet.packet.disconnect)) else Some(IoError), None;
      }
      var out := Emit(false);
      return None, if out.Sending? then Some(out.packet) else None;
    }

    /** What the application does, if it can. */
    method HandleApplication(e: Event, ghost io: nat -> bool) returns (ghost es: seq<Event>)
      requires Follows() && w.s.link.connected && AcksRight(w) && !FromNetwork(e)
      modifies this`w, this`held, this`submitted, held, session, session.ackRx
      ensures forall i :: 0 <= i < |held| ==> held[i] in old(held)
      ensures Follows()
      ensures Outcome(es, w, ios, None) == Handled(old(w), e, io, ios)
    {
      hide AcksRight, Held, P.PkidPool.Valid, Step;
      es := [];
      if e.UseToken? || e.DropToken? {
        if e.index < |held| {
          es := [e];
          Answer(e);
        }
      } else if e.AskDisconnect? || e.DropDisconnectHandle? ==> session.ch.disconnect.Waiting? {
        es := [e];
        Submit(e);
      }
    }

    /** What the server sends. It crashes only on a PUBLISH that is not supported or that reuses an identifier too early. */
    method HandleServer(e: Event, ghost io: nat -> bool) returns (ending: Option<Ending>, ghost es: seq<Event>)
      requires Follows() && w.s.link.connected
      requires FromNetwork(e) && Stays(e) && !e.Next?
      modifies this`w, this`held, session, session.pool, session.ackRx
      ensures forall i :: 0 <= i < |held| ==> held[i] in old(held) || fresh(held[i])
      ensures ending == Some(Crashed) || Follows()
      ensures Outcome(es, w, ios, ending) == Handled(old(w), e, io, ios)
    {
      hide Step, Held, P.PkidPool.Valid, NotReused;
      if e.InPublish? {
        if e.publish.delivery.Assured? {
          return Some(Crashed), [];
        }
        var crashed := TakePublish(e.publish, e.gone);
        return if crashed then Some(Crashed) else None, if crashed then [] else [e];
      }
      var r;
      if e.InPingResp? || e.InAuth? {
        r := TakeOther(e);
      } else {
        r := TakeAck(e);
      }
      return if r.Failure? then Some(ProtocolFailure) else None, [e];
    }

    /** What one input does. It may end the connection. */
    method Handle(e: Event, io: nat -> bool) returns (ending: Option<Ending>, ghost es: seq<Event>)
      requires Follows() && w.s.link.connected && AcksRight(w)
      modifies this, held, session, session.pool, session.ackRx
      ensures forall i :: 0 <= i < |held| ==> held[i] in old(held) || fresh(held[i])
      ensures w.s.link.connected && AcksRight(w)
      ensures ending == Some(Crashed) || Follows()
      ensures Outcome(es, w, ios, ending) == Handled(old(w), e, io, old(ios))
      ensures HandledRight(old(w), e, io, old(ios), Outcome(es, w, ios, ending))
    {
      hide AcksRight, Step, NextPacket, Held, P.PkidPool.Valid, HandledRight, NotReused, Rejects, WroteOut, Written;
      HandlesRight(w, e, io, ios);
      HandledStays(w, e, io, ios);
      if !FromNetwork(e) {
        es := HandleApplication(e, io);
        return None, es;
      }
      if e.Next? {
        var out := Emit(e.due);
        if !out.Sending? {
          return None, [e];
        }
        ghost var more;
        ending, more := WriteOut(out.packet, io);
        return ending, [e] + more;
      }
      if !Stays(e) {
        return if e.InConnAck? then Some(ProtocolFailure) else None, [];
      }
      ending, es := HandleServer(e, io);
    }

    /** `run_until_disconnect_inner`. */
    method RunInner(script: seq<Input>, io: nat -> bool) returns (ending: Ending, ghost es: seq<Event>, ghost r: Reading)
      requires Follows() && w.s.link.connected && AcksRight(w)
      modifies this, held, session, session.pool, session.ackRx
      ensures forall i :: 0 <= i < |held| ==> held[i] in old(held) || fresh(held[i])
      ensures w.s.link.connected && AcksRight(w)
      ensures ending.Crashed? || Follows()
      ensures r == Played(old(w), script, io, old(ios)) && r.outcome == Outcome(es, w, ios, Some(ending))
      ensures CauseRight(script, io, r)
    {
      hide AcksRight, Step, Held, P.PkidPool.Valid, Handled, HandledRight, CauseRight;
      EndsForItsCause(w, script, io, ios);
      PlayedStays(w, script, io, ios);
      r := Played(w, script, io, ios);
      es := [];
      var i := 0;
      assert script[0..] == script && Then([], r.outcome) == r.outcome;
      while i < |script|
        invariant 0 <= i <= |script|
        invariant Follows() && w.s.link.connected && AcksRight(w)
        invariant forall i :: 0 <= i < |held| ==> held[i] in old(held) || fresh(held[i])
        invariant var rest := Played(w, script[i..], io, ios);
          r == Reading(Then(es, rest.outcome), i + rest.read, rest.met)
      {
        assert script[i..][0] == script[i] && script[i..][1..] == script[i + 1..] && es + [] == es;
        match script[i] {
          case ServerDisconnects(d) => return Server(d), es, r;
          case UnexpectedPacketRead => return ProtocolFailure, es, r;
          case ReadFails => return IoError, es, r;
          case PingRespTimeout => return PingTimeout, es, r;
          case Happens(e) =>
            ghost var more;
            var ended;
            ended, more := Handle(e, io);
            ghost var rest := Outcome([], w, ios, None);
            if ended.Some? {
              return ended.value, es + more, r;
            }
            ThenThen(es, more, Played(w, script[i + 1..], io, ios).outcome);
            es := es + more;
        }
        i := i + 1;
      }
      assert script[i..] == [] && es + [] == es;
      ending := IoError;
    }

    /**
     * `run_until_disconnect`: whatever ends the connection, the run makes exactly one step that ends it. That step is
     * the application's exactly if its DISCONNECT was given out, written and flushed. What is returned holds a session
     * that is ready for the next connection. `past` is the run that led here.
     */
    method RunUntilDisconnect(script: seq<Input>, io: nat -> bool, ghost max: PacketId, ghost past: seq<Event>)
      returns (ending: Ending, ghost es: seq<Event>, ghost r: Reading, ghost last: Event)
      requires Follows() && w.s.link.connected && Trace(NewWorld(max), past, w)
      modifies this, held, session, session.pool, session.ackRx
      ensures r == Played(old(w), script, io, old(ios)) && r.outcome.ending == Some(ending) && r.outcome.es == es && r.outcome.ios == ios
      ensures CauseRight(script, io, r)
      ensures NoDisconnect(old(w).outlog.outputs) ==> DisconnectDecides(io, r.outcome)
      ensures Trace(old(w), es, r.outcome.w) && forall k :: 0 <= k < |es| ==> Stays(es[k])
      ensures last == if ending.Application? then Leave(ending.disconnect) else Lose
      ensures !ending.Crashed? ==>
        && Follows() && Enabled(r.outcome.w, last) && w == Step(r.outcome.w, last)
        && Trace(NewWorld(max), past + es + [last], w)
      ensures !ending.Crashed? && Matches(NewWorld(max), past + es) ==>
        var effective := if ending.Application? then Or(ending.disconnect.properties.sessionExpiry, old(w).agreed) else old(w).agreed;
        ReadyToReconnect(w, effective) && KeptOrCancelled(r.outcome.w, w, effective)
    {
      hide AcksRight, Held, P.PkidPool.Valid, SessionState.Disconnected, ExpireIfZero, Step, CauseRight, ReadyToReconnect, KeptOrCancelled, Played;
      TraceAcksRight(max, past, w);
      PlayedStays(w, script, io, ios);
      if NoDisconnect(w.outlog.outputs) {
        PlayedDecides(w, script, io, ios);
      }
      ending, es, r := RunInner(script, io);
      last := if ending.Application? then Leave(ending.disconnect) else Lose;
      if ending.Crashed? {
        return;
      }
      ghost var before := w;
      AgreedKept(old(w), es, w);
      TraceConcat(NewWorld(max), past, old(w), es, w);
      TraceSnoc(NewWorld(max), past + es, w, last);
      if Matches(NewWorld(max), past + es) {
        EndReturns(max, past + es, w, last);
      }
      Finish(ending);
    }

    /** The one transition that matches how the loop ended. */
    method Finish(ending: Ending)
      requires Follows() && w.s.link.connected
      modifies this`w, session`link, session`inflight, session`tracker, session`notices, session.pool
      ensures Follows() && w == Step(old(w), if ending.Application? then Leave(ending.disconnect) else Lose)
    {
      hide Held, P.PkidPool.Valid, SessionState.Disconnected, ExpireIfZero;
      if ending.Application? {
        w := Step(w, Leave(ending.disconnect));
        session.ClientDisconnect(ending.disconnect);
      } else {
        w := Step(w, Lose);
        session.ConnectionLost();
      }
    }

    /** One more write or flush. */
    method Io(io: nat -> bool) returns (ok: bool)
      modifies this`ios
      ensures ok == io(old(ios)) && ios == old(ios) + 1
    {
      ok := io(ios);
      ios := ios + 1;
    }
  }

  lemma ThenNothing(o: Outcome)
    ensures Then([], o) == o
  {
  }

  lemma ThenOnly(a: seq<Event>, b: seq<Event>, w: World, ios: nat, ending: Option<Ending>)
    ensures Then(a, Outcome(b, w, ios, ending)) == Outcome(a + b, w, ios, ending)
    ensures a + [] == a
  {
  }

  lemma ThenThen(a: seq<Event>, b: seq<Event>, o: Outcome)
    ensures Then(a, Then(b, o)) == Then(a + b, o)
  {
  }

  /** A received PUBLISH, as a step. */
  lemma PublishInStep(w: World, p: Publish, gone: bool)
    requires Enabled(w, InPublish(p, gone))
    ensures var v, (s, r) := Step(w, InPublish(p, gone)), SessionState.IncomingPublish(w.s, p, gone);
      && v.s == s && v.s.link == w.s.link && v.outlog == w.outlog
      && v.tokens == (if r.Handed? then w.tokens + [r.token] else w.tokens)
      && (r.Panicked? <==> !NotReused(w.s, InPublish(p, gone))) && (r.Panicked? ==> v == w)
  {
  }

  lemma CompleteKeepsLink(s: State, op: CompletedOperation)
    ensures Complete(s, op).0.link == s.link
  {
  }
}
