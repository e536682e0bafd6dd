/**
 * What the event loop of a connection does with what it meets: `Connection::run_until_disconnect` of `src/client.rs`.
 *
 * What the application and the server do is a script; how writes and flushes turn out is another. The functions say
 * which steps of the session follow and how the connection ends; the lemmas say what that means.
 */
module EventLoop {
  import opened Wrappers
  import opened Packets
  import opened OrderedMap
  import opened SessionState
  import opened AckOrder
  import opened Runs
  import opened AckRuns
  import opened Expiry
  import P = PkidPool

  datatype Input =
    | Happens(event: Event)
    | ServerDisconnects(disconnect: Disconnect)
    | UnexpectedPacketRead
    | ReadFails
    | PingRespTimeout

  /** How the inner loop ended. */
  datatype Ending = Application(disconnect: Disconnect) | Server(disconnect: Disconnect) | PingTimeout | IoError | ProtocolFailure | Crashed

  // --- Traces ---

  /** The steps lead from one world to the other. */
  ghost predicate Trace(w: World, es: seq<Event>, v: World)
    decreases |es|
  {
    if es == [] then v == w else Enabled(w, es[0]) && Trace(Step(w, es[0]), es[1..], v)
  }

  lemma {:induction false} TraceSnoc(w: World, es: seq<Event>, v: World, e: Event)
    requires Trace(w, es, v) && Enabled(v, e)
    ensures Trace(w, es + [e], Step(v, e))
    decreases |es|
  {
    hide Step;
    if es == [] {
      assert ([e])[1..] == [];
      assert Trace(Step(w, e), [], Step(v, e));
    } else {
      TraceSnoc(Step(w, es[0]), es[1..], v, e);
      assert (es + [e])[1..] == es[1..] + [e];
    }
  }

  /** A trace from a new session is a run, so that all that holds of runs holds of it. */
  lemma {:induction false} TraceIsRun(ws: seq<World>, before: seq<Event>, es: seq<Event>, v: World) returns (all: seq<World>)
    requires Run(ws, before) && Trace(ws[|before|], es, v)
    ensures Run(all, before + es) && all[|before + es|] == v
    decreases |es|
  {
    hide Step;
    if es == [] {
      assert before + es == before;
      return ws;
    }
    var w := Step(ws[|before|], es[0]);
    assert (ws + [w])[0] == ws[0];
    all := TraceIsRun(ws + [w], before + [es[0]], es[1..], v);
    assert before + [es[0]] + es[1..] == before + es;
  }

  lemma {:induction false} TraceConcat(w: World, a: seq<Event>, u: World, b: seq<Event>, v: World)
    requires Trace(w, a, u) && Trace(u, b, v)
    ensures Trace(w, a + b, v)
    decreases |a|
  {
    hide Step;
    if a == [] {
      assert a + b == b;
    } else {
      TraceConcat(Step(w, a[0]), a[1..], u, b, v);
      assert (a + b)[1..] == a[1..] + b;
    }
  }

  /** Steps that leave the connection up. */
  predicate Stays(e: Event) {
    !e.Leave? && !e.Lose? && !e.InConnAck?
  }

  predicate FromNetwork(e: Event) {
    || e.Next? || e.InSubAck? || e.InUnsubAck? || e.InPubAck? || e.InPublish? || e.InPingResp? || e.InAuth?
    || !Stays(e)
  }

  // --- The loop that empties the session ends ---

  function Backlog(s: State): nat {
    |s.inflight.replay| + |s.ch.acks| + |s.tracker| + |s.ch.auths| + |s.ch.pings| + |s.ch.subs| + |s.ch.pub0| + |s.ch.pub1|
    + if s.ch.disconnect.Requested? then 1 else 0
  }

  lemma {:induction false} RequestConsumes(s: State)
    ensures var (after, next) := NextRequest(s, false); next.Chosen? ==> Backlog(after) < Backlog(s)
    decreases |s.ch.acks|, |s.tracker|
  {
    hide P.Lease, Find;
    if HeadReady(s.tracker) {
      RequestConsumes(s.(tracker := s.tracker[1..]));
    } else {
      var (ch, pool, request) := PollRequest(s.ch, s.pool, false);
      var polled := s.(ch := ch, pool := pool);
      if request.Some? && request.value.ToAcknowledge? {
        var ack := request.value.ack;
        if ack.epoch != s.link.epoch {
          RequestConsumes(polled);
        } else if Find(s.tracker, ack.puback.id) < |s.tracker| {
          RequestConsumes(polled.(tracker := Insert(s.tracker, ack.puback.id, Some(ack))));
        }
      }
    }
  }

  /** Every packet without a keep-alive ping uses up something that was waiting. */
  lemma PacketConsumes(s: State)
    ensures var (after, out) := NextPacket(s, false); out.Sending? ==> Backlog(after) < Backlog(s)
  {
    hide NextRequest;
    if s.inflight.replay == [] {
      RequestConsumes(s);
      SameReplay(s);
    }
  }

  lemma SameReplay(s: State)
    requires s.inflight.replay == []
    ensures NextRequest(s, false).0.inflight.replay == []
  {
    var kind := RequestKind(s, false);
  }

  lemma KeepsLink(w: World, due: bool)
    ensures StepNext(w, due).s.link == w.s.link
  {
    hide NextPacket;
    var kind := NextKind(w.s, due);
  }

  // --- What the loop does ---

  /** The steps taken, where they lead, how often the network was written to or flushed by then, and the ending if any. */
  datatype Outcome = Outcome(es: seq<Event>, w: World, ios: nat, ending: Option<Ending>)

  function Then(es: seq<Event>, o: Outcome): Outcome {
    o.(es := es + o.es)
  }

  predicate IsDisconnect(packet: Outgoing) {
    packet.Control? && packet.packet.DisconnectPacket?
  }

  /** A packet is written, then all that are ready after it; then the network is flushed. */
  function Written(w: World, packet: Outgoing, io: nat -> bool, at: nat): Outcome
    requires w.s.link.connected
    decreases Backlog(w.s)
  {
    if !io(at) then Outcome([], w, at + 1, Some(IoError))
    else if IsDisconnect(packet) then
      Outcome([], w, at + 2, Some(if io(at + 1) then Application(packet.packet.disconnect) else IoError))
    else
      KeepsLink(w, false);
      PacketConsumes(w.s);
      var v := Step(w, Next(false));
      match NextPacket(w.s, false).1
      case Sending(next) => Then([Next(false)], Written(v, next, io, at + 1))
      case NothingToSend => Outcome([Next(false)], v, at + 2, if io(at + 1) then None else Some(IoError))
      case Panic => Outcome([Next(false)], v, at + 1, Some(Crashed))
  }

  /** One turn of the writing loop. */
  lemma WrittenNext(w: World, packet: Outgoing, io: nat -> bool, at: nat)
    requires w.s.link.connected
    ensures Step(w, Next(false)).s.link.connected
    ensures Written(w, packet, io, at) ==
      if !io(at) then Outcome([], w, at + 1, Some(IoError))
      else if IsDisconnect(packet) then Outcome([], w, at + 2, Some(if io(at + 1) then Application(packet.packet.disconnect) else IoError))
      else
        match NextPacket(w.s, false).1
        case Sending(next) => Then([Next(false)], Written(Step(w, Next(false)), next, io, at + 1))
        case NothingToSend => Outcome([Next(false)], Step(w, Next(false)), at + 2, if io(at + 1) then None else Some(IoError))
        case Panic => Outcome([Next(false)], Step(w, Next(false)), at + 1, Some(Crashed))
  {
    hide NextPacket;
    KeepsLink(w, false);
  }

  /** A packet of the server on which the session returns an error. */
  predicate Rejects(s: State, e: Event) {
    match e
    case InSubAck(id) => CompleteSubscribe(s, id).1.Failure?
    case InUnsubAck(id) => CompleteUnsubscribe(s, id).1.Failure?
    case InPubAck(puback) => CompletePublish(s, puback).1.Failure?
    case InAuth(auth, lenient) => IncomingAuth(s, auth, lenient).1.Failure?
    case _ => false
  }

  /** A PUBLISH that the session has no answer to: QoS 2, or an identifier that is still in use. */
  predicate Crashes(s: State, e: Event) {
    e.InPublish? && (e.publish.delivery.Assured? || !NotReused(s, e))
  }

  /** One input. The application may have no such token, or no disconnect handle any more. */
  function Handled(w: World, e: Event, io: nat -> bool, at: nat): Outcome
    requires w.s.link.connected
  {
    if !FromNetwork(e) then
      if Enabled(w, e) then Outcome([e], Step(w, e), at, None) else Outcome([], w, at, None)
    else if !Stays(e) then
      // A CONNACK is unexpected here, and the others are not packets.
      Outcome([], w, at, if e.InConnAck? then Some(ProtocolFailure) else None)
    else if Crashes(w.s, e) then Outcome([], w, at, Some(Crashed))
    else if !e.Next? then Outcome([e], Step(w, e), at, if Rejects(w.s, e) then Some(ProtocolFailure) else None)
    else
      KeepsLink(w, e.due);
      var v := Step(w, e);
      match NextPacket(w.s, e.due).1
      case Sending(packet) => Then([e], Written(v, packet, io, at))
      case NothingToSend => Outcome([e], v, at, None)
      case Panic => Outcome([e], v, at, Some(Crashed))
  }

  /** The loop over a script: how it ended, after how many inputs, and what the session was when it met the last one. */
  datatype Reading = Reading(outcome: Outcome, read: nat, met: World)

  /** When the script is over, the server has closed the connection. */
  function Played(w: World, script: seq<Input>, io: nat -> bool, at: nat): Reading
    requires w.s.link.connected
    decreases |script|
  {
    if script == [] then Reading(Outcome([], w, at, Some(IoError)), 0, w)
    else
      match script[0]
      case ServerDisconnects(d) => Reading(Outcome([], w, at, Some(Server(d))), 0, w)
      case UnexpectedPacketRead => Reading(Outcome([], w, at, Some(ProtocolFailure)), 0, w)
      case ReadFails => Reading(Outcome([], w, at, Some(IoError)), 0, w)
      case PingRespTimeout => Reading(Outcome([], w, at, Some(PingTimeout)), 0, w)
      case Happens(e) =>
        HandledStays(w, e, io, at);
        var o := Handled(w, e, io, at);
        if o.ending.Some? then Reading(o, 0, w)
        else
          var rest := Played(o.w, script[1..], io, o.ios);
          Reading(Then(o.es, rest.outcome), 1 + rest.read, rest.met)
  }

  /** One turn of the loop. */
  lemma PlayedNext(w: World, script: seq<Input>, io: nat -> bool, at: nat)
    requires w.s.link.connected && script != [] && script[0].Happens?
    ensures var o := Handled(w, script[0].event, io, at);
      && o.w.s.link.connected
      && Played(w, script, io, at) ==
        if o.ending.Some? then Reading(o, 0, w)
        else
          var rest := Played(o.w, script[1..], io, o.ios);
          Reading(Then(o.es, rest.outcome), 1 + rest.read, rest.met)
  {
    hide Handled;
    HandledStays(w, script[0].event, io, at);
  }

  /** Until its last step, the loop leaves the connection up, and it is a trace of steps. */
  lemma {:induction false} WrittenStays(w: World, packet: Outgoing, io: nat -> bool, at: nat)
    requires w.s.link.connected
    ensures var o := Written(w, packet, io, at);
      && o.w.s.link == w.s.link && Trace(w, o.es, o.w)
      && (forall k :: 0 <= k < |o.es| ==> o.es[k] == Next(false))
    decreases Backlog(w.s)
  {
    hide Step, NextPacket, Backlog;
    if io(at) && !IsDisconnect(packet) {
      StayOne(w, Next(false));
      PacketConsumes(w.s);
      NextOutput(w, false);
      var v := Step(w, Next(false));
      match NextPacket(w.s, false).1 {
        case Sending(next) =>
          WrittenStays(v, next, io, at + 1);
          TraceConcat(w, [Next(false)], v, Written(v, next, io, at + 1).es, Written(v, next, io, at + 1).w);
        case _ =>
      }
    }
  }

  /** One packet of the session, as a step. */
  lemma NextOutput(w: World, due: bool)
    requires w.s.link.connected
    ensures var v, (after, out) := Step(w, Next(due)), NextPacket(w.s, due);
      && v.s == after
      && v.outlog.outputs == w.outlog.outputs + if out.Sending? then [out.packet] else []
  {
    hide NextPacket;
  }

  lemma StayOne(w: World, e: Event)
    requires Enabled(w, e) && Stays(e)
    ensures Step(w, e).s.link == w.s.link && Step(w, e).agreed == w.agreed && Trace(w, [e], Step(w, e))
  {
    hide StepNext, CompletePublish;
    assert [e][1..] == [];
    if Elsewhere(e) {
      ElsewhereKeeps(w, e);
    } else if e.Next? {
      KeepsLink(w, e.due);
      StepNextKeeps(w, e.due);
    } else if e.InPubAck? {
      CompleteKeeps(w.s, e.puback);
    }
  }

  lemma CompleteKeeps(s: State, puback: PubAck)
    ensures CompletePublish(s, puback).0.link == s.link
  {
  }

  lemma HandledStays(w: World, e: Event, io: nat -> bool, at: nat)
    requires w.s.link.connected
    ensures var o := Handled(w, e, io, at);
      && o.w.s.link == w.s.link && Trace(w, o.es, o.w)
      && (forall k :: 0 <= k < |o.es| ==> Stays(o.es[k]))
  {
    hide Step, NextPacket, Written;
    if Enabled(w, e) && Stays(e) {
      StayOne(w, e);
      var out := NextPacket(w.s, if e.Next? then e.due else false).1;
      if e.Next? && out.Sending? {
        var v := Step(w, e);
        WrittenStays(v, out.packet, io, at);
        TraceConcat(w, [e], v, Written(v, out.packet, io, at).es, Written(v, out.packet, io, at).w);
      }
    }
  }

  lemma {:induction false} PlayedStays(w: World, script: seq<Input>, io: nat -> bool, at: nat)
    requires w.s.link.connected
    ensures var o := Played(w, script, io, at).outcome;
      && o.w.s.link == w.s.link && Trace(w, o.es, o.w) && o.ending.Some?
      && (forall k :: 0 <= k < |o.es| ==> Stays(o.es[k]))
    decreases |script|
  {
    hide Step, Handled;
    if script != [] && script[0].Happens? {
      var e := script[0].event;
      HandledStays(w, e, io, at);
      var o := Handled(w, e, io, at);
      if o.ending.None? {
        PlayedStays(o.w, script[1..], io, o.ios);
        var rest := Played(o.w, script[1..], io, o.ios).outcome;
        TraceConcat(w, o.es, o.w, rest.es, rest.w);
      }
    }
  }

  // --- A DISCONNECT counts once it is flushed ---

  lemma {:induction false} SettledIsEmpty(acks: seq<AckRequest>, tracker: Tracker, epoch: nat)
    ensures Settle(acks, tracker, epoch).2.Empty? ==>
      Settle(acks, tracker, epoch).0 == [] && !HeadReady(Settle(acks, tracker, epoch).1)
    decreases |acks|, |tracker|
  {
    hide Insert, Find;
    if HeadReady(tracker) {
      SettledIsEmpty(acks, tracker[1..], epoch);
    } else if acks != [] {
      if acks[0].epoch != epoch {
        SettledIsEmpty(acks[1..], tracker, epoch);
      } else if acks[0].puback.id in Ids(tracker) {
        SettledIsEmpty(acks[1..], Insert(tracker, acks[0].puback.id, Some(acks[0])), epoch);
      }
    }
  }

  /** A session with nothing to send has nothing to send when it is asked again. */
  lemma IdleStays(s: State)
    requires NextPacket(s, false).1.NothingToSend?
    ensures NextPacket(NextPacket(s, false).0, false).1.NothingToSend?
  {
    hide Settle, SkipStale, P.Lease, Register;
    var t := NextPacket(s, false).0;
    assert t == NextRequest(s, false).0 && NextRequest(s, false).1 == Idle;
    IdleState(s);
    assert NextRequest(t, false).1 == Idle;
  }

  lemma IdleState(s: State)
    requires NextRequest(s, false).1 == Idle
    ensures var t := NextRequest(s, false).0;
      && t.inflight == s.inflight && t.ch.acks == [] && !HeadReady(t.tracker) && !t.ch.disconnect.Requested?
      && PollRest(t.ch.(disconnect := CloseIfDropped(t.ch.disconnect)), t.pool, false && t.link.keepAlive.Every?).2 == None
  {
    hide Settle, SkipStale, NextRequest, P.Lease;
    LoopIsOnePass(s, false);
    SettledIsEmpty(s.ch.acks, SkipStale(s.tracker, s.link.epoch), s.link.epoch);
  }

  /**
   * Every packet given out is written, one write each and in order, until a write fails, a DISCONNECT is given out or
   * the session has nothing to send; after either of the last two comes one flush. A failed write or flush is an I/O
   * error and nothing else is; a DISCONNECT ends the connection as the application's exactly if it is written and flushed.
   */
  ghost predicate WroteOut(w: World, io: nat -> bool, at: nat, o: Outcome) {
    var before, after := w.outlog.outputs, o.w.outlog.outputs;
    var packets := |after| - |before| + 1;
    && before != [] && before <= after
    && at + packets <= o.ios <= at + packets + 1
    && (forall k :: at <= k < o.ios - 1 ==> io(k))
    && (o.ending == Some(IoError) <==> !io(o.ios - 1))
    && (o.ending != Some(IoError) ==> o.ios == at + packets + 1)
    && (forall k :: |before| - 1 <= k < |after| - 1 ==> !IsDisconnect(after[k]))
    && match o.ending
       case None => !IsDisconnect(after[|after| - 1]) && NextPacket(o.w.s, false).1.NothingToSend?
       case Some(Application(d)) => after[|after| - 1] == Control(DisconnectPacket(d))
       case Some(e) => e == IoError
  }

  lemma WroteOneMore(w: World, v: World, io: nat -> bool, at: nat, o: Outcome)
    requires WroteOut(v, io, at + 1, o) && io(at)
    requires w.outlog.outputs != [] && !IsDisconnect(w.outlog.outputs[|w.outlog.outputs| - 1])
    requires |v.outlog.outputs| == |w.outlog.outputs| + 1 && w.outlog.outputs <= v.outlog.outputs
    ensures WroteOut(w, io, at, Then([Next(false)], o))
  {
    hide NextPacket;
  }

  lemma {:induction false} WritesAndFlushes(w: World, packet: Outgoing, io: nat -> bool, at: nat)
    requires w.s.link.connected && AcksRight(w)
    requires w.outlog.outputs != [] && w.outlog.outputs[|w.outlog.outputs| - 1] == packet
    ensures WroteOut(w, io, at, Written(w, packet, io, at)) && AcksRight(Written(w, packet, io, at).w)
    decreases Backlog(w.s)
  {
    hide Step, NextPacket, Backlog, AcksRight;
    if io(at) && !IsDisconnect(packet) {
      StayOne(w, Next(false));
      NextOutput(w, false);
      PacketConsumes(w.s);
      NextNeverPanics(w, false);
      StepKeepsAcks(w, Next(false));
      var v := Step(w, Next(false));
      match NextPacket(w.s, false).1 {
        case Sending(next) =>
          WritesAndFlushes(v, next, io, at + 1);
          WroteOneMore(w, v, io, at, Written(v, next, io, at + 1));
        case NothingToSend => IdleStays(w.s);
        case Panic =>
      }
    }
  }

  // --- What ends the connection ---

  /** What one input does to the run, and whether it ends the connection. */
  ghost predicate HandledRight(w: World, e: Event, io: nat -> bool, at: nat, o: Outcome)
    requires w.s.link.connected
  {
    if !FromNetwork(e) then o.ending.None? && o.ios == at && o.es == if Enabled(w, e) then [e] else []
    else if e.Next? then
      && o.es != [] && o.es[0] == e && (forall k :: 1 <= k < |o.es| ==> o.es[k] == Next(false))
      && if NextPacket(w.s, e.due).1.Sending? then WroteOut(Step(w, e), io, at, o) else o.ending.None? && o.ios == at && o.es == [e]
    else
      && o.ios == at
      && o.es == (if Stays(e) && !Crashes(w.s, e) then [e] else [])
      && (o.ending == Some(ProtocolFailure) <==> e.InConnAck? || Rejects(w.s, e))
      && (o.ending == Some(Crashed) <==> Crashes(w.s, e))
      && (o.ending.Some? ==> o.ending.value in {ProtocolFailure, Crashed})
  }

  lemma HandlesRight(w: World, e: Event, io: nat -> bool, at: nat)
    requires w.s.link.connected && AcksRight(w)
    ensures HandledRight(w, e, io, at, Handled(w, e, io, at)) && AcksRight(Handled(w, e, io, at).w)
  {
    hide Step, NextPacket, Written, AcksRight, WroteOut;
    if Enabled(w, e) && Stays(e) {
      StepKeepsAcks(w, e);
    }
    if e.Next? {
      StayOne(w, e);
      NextOutput(w, e.due);
      NextNeverPanics(w, e.due);
      var out, v := NextPacket(w.s, e.due).1, Step(w, e);
      if out.Sending? {
        WritesAndFlushes(v, out.packet, io, at);
        WrittenStays(v, out.packet, io, at);
        SameWroteOut(v, io, at, Written(v, out.packet, io, at), [e]);
      }
    }
  }

  lemma SameWroteOut(w: World, io: nat -> bool, at: nat, o: Outcome, es: seq<Event>)
    requires WroteOut(w, io, at, o)
    ensures WroteOut(w, io, at, Then(es, o))
  {
  }

  /** The last packet of the session was this DISCONNECT. */
  ghost predicate GaveOut(w: World, d: Disconnect) {
    w.outlog.outputs != [] && w.outlog.outputs[|w.outlog.outputs| - 1] == Control(DisconnectPacket(d))
  }

  /** How a reading of the script ended is how its last input, or the lack of one, ends a connection. */
  ghost predicate CauseRight(script: seq<Input>, io: nat -> bool, r: Reading)
    requires r.outcome.ending.Some?
  {
    var o, ending := r.outcome, r.outcome.ending.value;
    && r.read <= |script|
    && (forall k :: 0 <= k < r.read ==> script[k].Happens?)
    && if r.read == |script| then ending == IoError
       else
         match script[r.read]
         case ServerDisconnects(d) => ending == Server(d)
         case UnexpectedPacketRead => ending == ProtocolFailure
         case ReadFails => ending == IoError
         case PingRespTimeout => ending == PingTimeout
         case Happens(e) =>
           match ending
           case Application(d) => e.Next? && o.ios >= 2 && io(o.ios - 1) && io(o.ios - 2) && GaveOut(o.w, d)
           case IoError => e.Next? && o.ios >= 1 && !io(o.ios - 1)
           case ProtocolFailure => e.InConnAck? || Rejects(r.met.s, e)
           case Crashed => Crashes(r.met.s, e)
           case _ => false
  }

  lemma CauseLater(script: seq<Input>, io: nat -> bool, es: seq<Event>, rest: Reading)
    requires script != [] && script[0].Happens? && rest.outcome.ending.Some? && CauseRight(script[1..], io, rest)
    ensures CauseRight(script, io, Reading(Then(es, rest.outcome), 1 + rest.read, rest.met))
  {
    hide Rejects, Crashes;
    assert forall k :: 0 < k < |script| ==> script[k] == script[1..][k - 1];
  }

  lemma CauseHere(w: World, script: seq<Input>, io: nat -> bool, at: nat, o: Outcome)
    requires w.s.link.connected && script != [] && script[0].Happens? && o.ending.Some?
    requires HandledRight(w, script[0].event, io, at, o)
    ensures CauseRight(script, io, Reading(o, 0, w))
  {
    hide Rejects, Crashes, NextPacket, Step;
  }

  lemma {:induction false} EndsForItsCause(w: World, script: seq<Input>, io: nat -> bool, at: nat)
    requires w.s.link.connected && AcksRight(w)
    ensures Played(w, script, io, at).outcome.ending.Some?
    ensures CauseRight(script, io, Played(w, script, io, at)) && AcksRight(Played(w, script, io, at).outcome.w)
    decreases |script|
  {
    hide Step, NextPacket, Handled, AcksRight, HandledRight;
    if script != [] && script[0].Happens? {
      hide Played, CauseRight;
      var e := script[0].event;
      PlayedNext(w, script, io, at);
      HandlesRight(w, e, io, at);
      var o := Handled(w, e, io, at);
      if o.ending.None? {
        EndsForItsCause(o.w, script[1..], io, o.ios);
        CauseLater(script, io, o.es, Played(o.w, script[1..], io, o.ios));
      } else {
        CauseHere(w, script, io, at, o);
      }
    }
  }

  // --- Only a flushed DISCONNECT is the application's ---

  ghost predicate NoDisconnect(outputs: seq<Outgoing>) {
    forall k :: 0 <= k < |outputs| ==> !IsDisconnect(outputs[k])
  }

  /** A DISCONNECT that was given out decides the ending: the application's if its flush succeeded, an I/O error if not. */
  ghost predicate DisconnectDecides(io: nat -> bool, o: Outcome) {
    forall d :: GaveOut(o.w, d) ==> o.ios >= 1 && o.ending == Some(if io(o.ios - 1) then Application(d) else IoError)
  }

  lemma OutputsKept(w: World, e: Event)
    requires Enabled(w, e) && Stays(e) && !e.Next?
    ensures Step(w, e).outlog.outputs == w.outlog.outputs
  {
    hide CompletePublish;
    if Elsewhere(e) {
      ElsewhereKeeps(w, e);
    }
  }

  lemma HandledDecides(w: World, e: Event, io: nat -> bool, at: nat)
    requires w.s.link.connected && AcksRight(w) && NoDisconnect(w.outlog.outputs)
    ensures var o := Handled(w, e, io, at);
      DisconnectDecides(io, o) && (o.ending.None? ==> NoDisconnect(o.w.outlog.outputs))
  {
    hide Step, NextPacket, Written, AcksRight;
    var o := Handled(w, e, io, at);
    HandlesRight(w, e, io, at);
    if Enabled(w, e) && Stays(e) && !e.Next? {
      OutputsKept(w, e);
    }
    if e.Next? {
      NextOutput(w, e.due);
      if NextPacket(w.s, e.due).1.Sending? {
        WroteDecides(w, Step(w, e), io, at, o);
      }
    }
  }

  lemma WroteDecides(w: World, v: World, io: nat -> bool, at: nat, o: Outcome)
    requires NoDisconnect(w.outlog.outputs) && WroteOut(v, io, at, o)
    requires |v.outlog.outputs| == |w.outlog.outputs| + 1 && w.outlog.outputs <= v.outlog.outputs
    ensures DisconnectDecides(io, o) && (o.ending.None? ==> NoDisconnect(o.w.outlog.outputs))
  {
    hide NextPacket;
    var before, after := w.outlog.outputs, o.w.outlog.outputs;
    forall k | 0 <= k < |after| - 1
      ensures !IsDisconnect(after[k])
    {
      assert k < |before| ==> after[k] == before[k];
    }
  }

  lemma {:induction false} PlayedDecides(w: World, script: seq<Input>, io: nat -> bool, at: nat)
    requires w.s.link.connected && AcksRight(w) && NoDisconnect(w.outlog.outputs)
    ensures DisconnectDecides(io, Played(w, script, io, at).outcome)
    decreases |script|
  {
    hide Step, NextPacket, Handled, AcksRight;
    if script != [] && script[0].Happens? {
      var e := script[0].event;
      HandledStays(w, e, io, at);
      HandlesRight(w, e, io, at);
      HandledDecides(w, e, io, at);
      var o := Handled(w, e, io, at);
      if o.ending.None? {
        PlayedDecides(o.w, script[1..], io, o.ios);
      }
    }
  }

  // --- No packet of the server and no request is lost, repeated or reordered ---

  /** The packets of the server, and the requests that the application can make at any time. */
  predicate AlwaysTaken(e: Event) {
    || e.InSubAck? || e.InUnsubAck? || e.InPubAck? || e.InPublish? || e.InPingResp? || e.InAuth?
    || e.SubmitPublish? || e.SubmitPublishOnce? || e.SubmitSubscription? || e.SubmitPing? || e.SubmitAuth?
  }

  function TakenOf(es: seq<Event>): seq<Event> {
    if es == [] then [] else (if AlwaysTaken(es[0]) then [es[0]] else []) + TakenOf(es[1..])
  }

  function TakenIn(script: seq<Input>): seq<Event> {
    if script == [] then []
    else (if script[0].Happens? && AlwaysTaken(script[0].event) then [script[0].event] else []) + TakenIn(script[1..])
  }

  lemma {:induction false} TakenConcat(a: seq<Event>, b: seq<Event>)
    ensures TakenOf(a + b) == TakenOf(a) + TakenOf(b)
  {
    if a == [] {
      assert a + b == b;
    } else {
      hide AlwaysTaken;
      TakenConcat(a[1..], b);
      assert (a + b)[1..] == a[1..] + b && (a + b)[0] == a[0];
      var head := if AlwaysTaken(a[0]) then [a[0]] else [];
      assert head + (TakenOf(a[1..]) + TakenOf(b)) == head + TakenOf(a[1..]) + TakenOf(b);
    }
  }

  lemma {:induction false} NoneTaken(es: seq<Event>)
    requires forall k :: 0 <= k < |es| ==> !AlwaysTaken(es[k])
    ensures TakenOf(es) == []
  {
    if es != [] {
      NoneTaken(es[1..]);
    }
  }

  lemma HandledTaken(w: World, e: Event, io: nat -> bool, at: nat)
    requires w.s.link.connected && AcksRight(w)
    ensures var o := Handled(w, e, io, at);
      TakenOf(o.es) == if AlwaysTaken(e) && o.ending != Some(Crashed) then [e] else []
  {
    hide Handled, AcksRight, Step, NextPacket, WroteOut;
    HandlesRight(w, e, io, at);
    var o := Handled(w, e, io, at);
    if AlwaysTaken(e) && o.ending != Some(Crashed) {
      assert o.es == [e] && [e][1..] == [];
    } else {
      NoneTaken(o.es);
    }
  }

  /** The packets and requests among the inputs that were read, up to a crash, are the steps taken. */
  ghost predicate AllTakenOnce(script: seq<Input>, r: Reading) {
    && r.read <= |script|
    && TakenOf(r.outcome.es) ==
      TakenIn(script[..if r.read < |script| && r.outcome.ending != Some(Crashed) then r.read + 1 else r.read])
  }

  /** The packets and requests among the inputs that were read are the steps taken for them, each once and in order. */
  lemma {:induction false} EveryInputTaken(w: World, script: seq<Input>, io: nat -> bool, at: nat)
    requires w.s.link.connected && AcksRight(w)
    ensures AllTakenOnce(script, Played(w, script, io, at))
    decreases |script|
  {
    hide Step, NextPacket, Handled, AcksRight, HandledRight, AllTakenOnce;
    if script != [] && script[0].Happens? {
      var e := script[0].event;
      PlayedNext(w, script, io, at);
      HandlesRight(w, e, io, at);
      HandledTaken(w, e, io, at);
      var o := Handled(w, e, io, at);
      if o.ending.None? {
        EveryInputTaken(o.w, script[1..], io, o.ios);
        TakenMore(script, e, o.es, Played(o.w, script[1..], io, o.ios));
      } else {
        TakenLast(script, e, o, w);
      }
    } else {
      TakenNone(script, Played(w, script, io, at));
    }
  }

  lemma TakenNone(script: seq<Input>, r: Reading)
    requires r.read == 0 && r.outcome.es == [] && (script != [] ==> !script[0].Happens?)
    ensures AllTakenOnce(script, r)
  {
    if script != [] {
      assert script[..1][1..] == [];
    }
  }

  lemma TakenLast(script: seq<Input>, e: Event, o: Outcome, w: World)
    requires script != [] && script[0] == Happens(e)
    requires TakenOf(o.es) == if AlwaysTaken(e) && o.ending != Some(Crashed) then [e] else []
    ensures AllTakenOnce(script, Reading(o, 0, w))
  {
    hide AlwaysTaken;
    TakenFirst(script, e);
  }

  lemma TakenMore(script: seq<Input>, e: Event, es: seq<Event>, rest: Reading)
    requires script != [] && script[0] == Happens(e) && AllTakenOnce(script[1..], rest)
    requires TakenOf(es) == if AlwaysTaken(e) then [e] else []
    ensures AllTakenOnce(script, Reading(Then(es, rest.outcome), 1 + rest.read, rest.met))
  {
    hide AlwaysTaken, TakenOf, TakenIn;
    TakenConcat(es, rest.outcome.es);
    TakenLater(script, rest.read);
    TakenLater(script, rest.read + 1);
  }

  lemma TakenFirst(script: seq<Input>, e: Event)
    requires script != [] && script[0] == Happens(e)
    ensures TakenIn(script[..1]) == (if AlwaysTaken(e) then [e] else []) && TakenIn(script[..0]) == []
  {
    assert script[..1][1..] == [];
  }

  lemma TakenLater(script: seq<Input>, n: nat)
    requires script != []
    ensures n <= |script[1..]| ==>
      TakenIn(script[..1 + n]) == (if script[0].Happens? && AlwaysTaken(script[0].event) then [script[0].event] else []) + TakenIn(script[1..][..n])
  {
    if n <= |script[1..]| {
      assert script[..1 + n][1..] == script[1..][..n];
    }
  }

  // --- What is returned after the end ---

  /** Every step satisfies what the server is trusted with. */
  ghost predicate Matches(w: World, es: seq<Event>)
    decreases |es|
  {
    es == [] || (KindMatches(w.s, es[0]) && (Enabled(w, es[0]) ==> Matches(Step(w, es[0]), es[1..])))
  }

  lemma {:induction false} MatchesRun(ws: seq<World>, before: seq<Event>, es: seq<Event>, v: World) returns (all: seq<World>)
    requires Run(ws, before) && Trace(ws[|before|], es, v) && Matches(ws[|before|], es)
    requires forall k :: 0 <= k < |before| ==> KindMatches(ws[k].s, before[k])
    ensures Run(all, before + es) && all[|before + es|] == v && ws <= all
    ensures forall k :: 0 <= k < |before + es| ==> KindMatches(all[k].s, (before + es)[k])
    decreases |es|
  {
    hide Step, KindMatches;
    if es == [] {
      assert before + es == before;
      return ws;
    }
    var w := Step(ws[|before|], es[0]);
    assert (ws + [w])[0] == ws[0];
    all := MatchesRun(ws + [w], before + [es[0]], es[1..], v);
    assert before + [es[0]] + es[1..] == before + es;
  }

  /**
   * A session after the end of a connection. Whatever ended it, only PUBLISHes are in flight, all of them to be
   * replayed and holding all leases; the effective interval is in force, and if it is zero there is nothing at all.
   */
  ghost predicate ReadyToReconnect(w: World, effective: SessionExpiry) {
    && !w.s.link.connected && OnlyPublishes(w.s)
    && w.s.link.expiry == w.agreed == effective
    && w.s.pool.leased == Ids(w.s.inflight.publishes) && w.s.inflight.replay == ReplayOf(w.s.inflight.publishes)
    && (effective == Duration(0) ==> w.s.inflight == NOTHING_INFLIGHT && w.s.pool.leased == {})
  }

  /** What was in flight at the end is kept exactly, or all of it is cancelled. */
  ghost predicate KeptOrCancelled(u: World, v: World, effective: SessionExpiry) {
    if effective == Duration(0) then v.s.notices == u.s.notices + Cancellations(u.s.inflight.publishes)
    else v.s.inflight.publishes == u.s.inflight.publishes && v.s.notices == u.s.notices
  }

  /** A run that ends with the end of a connection leaves such a session. */
  lemma EndReturns(max: PacketId, es: seq<Event>, u: World, last: Event)
    requires Trace(NewWorld(max), es, u) && Enabled(u, last) && (last.Leave? || last.Lose?)
    requires Matches(NewWorld(max), es)
    ensures ReadyToReconnect(Step(u, last), Effective(u, last)) && KeptOrCancelled(u, Step(u, last), Effective(u, last))
  {
    hide Step, Effective, Matches, Run, KindMatches;
    var run := RunThen(max, es, u, last);
    EndAt(run, es + [last], |es|);
  }

  lemma RunThen(max: PacketId, es: seq<Event>, u: World, last: Event) returns (run: seq<World>)
    requires Trace(NewWorld(max), es, u) && Matches(NewWorld(max), es) && Enabled(u, last)
    ensures Run(run, es + [last]) && |run| == |es| + 2 && run[|es|] == u && run[|es| + 1] == Step(u, last)
    ensures forall k :: 0 <= k < |es| ==> KindMatches(run[k].s, (es + [last])[k])
  {
    hide Step, KindMatches, Run, Enabled, Trace, Matches;
    NewRun(max);
    var all := MatchesRun([NewWorld(max)], [], es, u);
    assert [] + es == es;
    RunLength(all, es);
    RunSnoc(all, es, last);
    run := all + [Step(u, last)];
  }

  lemma EndAt(ws: seq<World>, es: seq<Event>, i: nat)
    requires Run(ws, es) && i < |es| && |ws| == |es| + 1 && (es[i].Leave? || es[i].Lose?)
    requires forall k :: 0 <= k < i ==> KindMatches(ws[k].s, es[k])
    ensures ReadyToReconnect(ws[i + 1], Effective(ws[i], es[i])) && KeptOrCancelled(ws[i], ws[i + 1], Effective(ws[i], es[i]))
  {
    hide Run, Effective, OnlyPublishes;
    EndOfConnection(ws, es, i);
    BetweenConnections(ws, es, i + 1);
  }

  lemma {:induction false} AgreedKept(w: World, es: seq<Event>, v: World)
    requires Trace(w, es, v) && forall k :: 0 <= k < |es| ==> Stays(es[k])
    ensures v.agreed == w.agreed
    decreases |es|
  {
    hide Step;
    if es != [] {
      StayOne(w, es[0]);
      AgreedKept(Step(w, es[0]), es[1..], v);
    }
  }

  /** In any trace from a new session the acknowledgements are right. */
  lemma TraceAcksRight(max: PacketId, es: seq<Event>, w: World)
    requires Trace(NewWorld(max), es, w)
    ensures AcksRight(w)
  {
    hide Step, AcksRight;
    var all := TraceIsRun([NewWorld(max)], [], es, w);
    AcksAlwaysRight(all, [] + es, |es|);
  }
}
