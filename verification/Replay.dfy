/**
 * Redelivery of QoS 1 PUBLISHes: section 4.4 of MQTT Version 5.0.
 *
 * What waits for replay is always the tail of what is in flight, all of it when a connection begins; it goes out
 * before anything new, and only a repeated PUBLISH carries the DUP flag.
 */
module Replay {
  import opened Wrappers
  import opened Packets
  import opened PkidPool
  import opened OrderedMap
  import opened SessionState
  import opened Runs
  import opened Identifiers

  // --- The replay queue ---

  ghost predicate InflightOk(publishes: seq<Entry<Sent>>) {
    Distinct(publishes) && forall i :: 0 <= i < |publishes| ==> publishes[i].value.publish.delivery == Acked(publishes[i].id, false)
  }

  /** The replay queue is the last entries in flight, with DUP set. */
  ghost predicate IsTail(publishes: seq<Entry<Sent>>, replay: seq<Publish>) {
    && |replay| <= |publishes|
    && forall k :: 0 <= k < |replay| ==> replay[k] == WithDup(publishes[|publishes| - |replay| + k].value.publish)
  }

  ghost predicate ReplayExact(f: Inflight, connected: bool) {
    && InflightOk(f.publishes)
    && IsTail(f.publishes, f.replay)
    && (!connected ==> |f.replay| == |f.publishes|)
  }

  lemma NextKeepsReplay(s: State, due: bool)
    requires ReplayExact(s.inflight, true)
    ensures ReplayExact(NextPacket(s, due).0.inflight, true)
  {
    hide NextPacket, Insert, Lease;
    var kind := NextKind(s, due);
    var f := s.inflight;
    if kind.FirstSend? {
      var r := s.ch.pub1[0];
      SendKeepsOk(f.publishes, kind.id, Sent(ToPublish(r, Acked(kind.id, false)), r.notifier));
    }
  }

  lemma SendKeepsOk(publishes: seq<Entry<Sent>>, id: PacketId, sent: Sent)
    requires InflightOk(publishes) && sent.publish.delivery == Acked(id, false)
    ensures InflightOk(Insert(publishes, id, sent)) && IsTail(Insert(publishes, id, sent), [])
  {
  }

  /** The queue holds the identifier of an entry exactly if the entry is in the tail. */
  lemma InTail(publishes: seq<Entry<Sent>>, replay: seq<Publish>, i: nat)
    requires InflightOk(publishes) && IsTail(publishes, replay) && i < |publishes|
    ensures ReplayHas(replay, publishes[i].id) <==> i >= |publishes| - |replay|
  {
    var start := |publishes| - |replay|;
    if i >= start {
      assert replay[i - start].delivery.id == publishes[i].id;
    } else {
      forall k | 0 <= k < |replay|
        ensures replay[k].delivery.id != publishes[i].id
      {
        assert publishes[start + k].id != publishes[i].id;
      }
    }
  }

  lemma RemovalKeepsOk(publishes: seq<Entry<Sent>>, i: nat)
    requires InflightOk(publishes) && i < |publishes|
    ensures var after := publishes[..i] + publishes[i + 1..];
      InflightOk(after) && forall k :: 0 <= k < |after| ==> after[k].id != publishes[i].id
  {
  }

  lemma NotInflight(publishes: seq<Entry<Sent>>, replay: seq<Publish>, id: PacketId)
    requires InflightOk(publishes) && IsTail(publishes, replay)
    requires forall k :: 0 <= k < |publishes| ==> publishes[k].id != id
    ensures !ReplayHas(replay, id)
  {
  }

  /** Removing an entry keeps the queue a tail exactly if the entry is not in the queue. */
  lemma RemovalKeepsTail(publishes: seq<Entry<Sent>>, replay: seq<Publish>, i: nat)
    requires InflightOk(publishes) && IsTail(publishes, replay) && i < |publishes|
    ensures var after := publishes[..i] + publishes[i + 1..];
      IsTail(after, replay) <==> !ReplayHas(replay, publishes[i].id)
  {
    hide ReplayHas;
    InTail(publishes, replay, i);
    var after := publishes[..i] + publishes[i + 1..];
    var start := |publishes| - |replay|;
    if i < start {
      forall k | 0 <= k < |replay|
        ensures replay[k] == WithDup(after[|after| - |replay| + k].value.publish)
      {
        assert after[start - 1 + k] == publishes[start + k];
      }
    } else if IsTail(after, replay) {
      RemovalKeepsOk(publishes, i);
      NotInflight(after, replay, publishes[i].id);
    }
  }

  lemma PubAckKeepsReplay(s: State, puback: PubAck)
    requires ReplayExact(s.inflight, true)
    ensures ReplayExact(CompletePublish(s, puback).0.inflight, true) <==> !ReplayHas(s.inflight.replay, puback.id)
  {
    hide InflightOk, IsTail, ReplayHas;
    var f := s.inflight;
    var i := Find(f.publishes, puback.id);
    if i < |f.publishes| {
      RemovalKeepsOk(f.publishes, i);
      RemovalKeepsTail(f.publishes, f.replay, i);
    } else {
      NotInflight(f.publishes, f.replay, puback.id);
    }
  }

  /**
   * A step keeps the queue exact if and only if it is not a PUBACK for a PUBLISH that still waits for its replay.
   */
  lemma ReplayKeptExactly(w: World, e: Event)
    requires Enabled(w, e) && ReplayExact(w.s.inflight, w.s.link.connected)
    ensures ReplayExact(Step(w, e).s.inflight, Step(w, e).s.link.connected) <==> NotBeforeReplay(w.s, e)
  {
    hide StepNext, CompletePublish, ReplayHas, InflightOk, IsTail;
    if Elsewhere(e) {
      hide Step;
      ElsewhereKeeps(w, e);
      return;
    }
    match e {
      case Next(due) =>
        NextKeepsReplay(w.s, due);
        StepNextState(w, due);
        NextKeepsLink(w.s, due);
      case InPubAck(puback) =>
        PubAckKeepsReplay(w.s, puback);
        LinkKept(w.s, puback);
      case Leave(_) => DisconnectRebuilds(w.s);
      case Lose => DisconnectRebuilds(w.s);
      case InConnAck(_, _, _) => DisconnectRebuilds(w.s);
      case _ =>
    }
  }

  lemma NextKeepsLink(s: State, due: bool)
    ensures NextPacket(s, due).0.link == s.link
  {
    hide NextPacket;
    var kind := NextKind(s, due);
  }

  lemma DisconnectRebuilds(s: State)
    requires InflightOk(s.inflight.publishes)
    ensures IsTail(s.inflight.publishes, ReplayOf(s.inflight.publishes)) && InflightOk([]) && IsTail([], [])
  {
  }

  lemma LinkKept(s: State, puback: PubAck)
    ensures CompletePublish(s, puback).0.link == s.link
  {
  }

  lemma {:induction false} ReplayAlwaysExact(ws: seq<World>, es: seq<Event>, i: nat)
    requires Run(ws, es) && i < |ws|
    requires forall k :: 0 <= k < i ==> NotBeforeReplay(ws[k].s, es[k])
    ensures ReplayExact(ws[i].s.inflight, ws[i].s.link.connected)
  {
    hide Step, ReplayExact;
    if i > 0 {
      ReplayAlwaysExact(ws, es, i - 1);
      ReplayKeptExactly(ws[i - 1], es[i - 1]);
    } else {
      NewReplayExact();
    }
  }

  lemma NewReplayExact()
    ensures ReplayExact(NOTHING_INFLIGHT, false)
  {
  }

  // --- The DUP flag ---

  ghost predicate Before(returned: seq<Returned>, i: nat, n: nat)
    requires i <= |returned|
  {
    exists j :: 0 <= j < i && returned[j].notifier == n
  }

  /** The `i`-th PUBLISH given out is its request's, with DUP set exactly if that request had been given out before. */
  ghost predicate DupRight(h: OutLog, i: nat)
    requires i < |h.returned|
  {
    var n := h.returned[i].notifier;
    && n < |h.leases| && n < |h.requests|
    && h.returned[i].publish == ToPublish(h.requests[n], Acked(h.leases[n], Before(h.returned, i, n)))
  }

  ghost predicate DupsRight(h: OutLog) {
    && (forall i :: 0 <= i < |h.returned| ==> DupRight(h, i))
    && (forall n :: 0 <= n < |h.leases| ==> Before(h.returned, |h.returned|, n))
  }

  /** Giving out one more PUBLISH, for a request that was or was not given out before. */
  lemma ReturnKeepsDups(h: OutLog, h': OutLog, r: Returned)
    requires DupsRight(h) && h.requests == h'.requests && h'.returned == h.returned + [r]
    requires |h.leases| <= |h.requests|
    requires r.notifier < |h.requests| && r.notifier <= |h.leases|
    requires r.notifier < |h.leases| ==> h'.leases == h.leases
    requires r.notifier == |h.leases| ==> |h'.leases| == |h.leases| + 1 && h.leases <= h'.leases
    requires r.publish == ToPublish(h.requests[r.notifier], Acked(h'.leases[r.notifier], r.notifier < |h.leases|))
    ensures DupsRight(h')
  {
    var last := |h.returned|;
    forall i | 0 <= i < last
      ensures DupRight(h', i)
    {
      assert DupRight(h, i);
      BeforePrefix(h.returned, h'.returned, i, h.returned[i].notifier);
    }
    BeforePrefix(h.returned, h'.returned, last, r.notifier);
    forall j | 0 <= j < last
      ensures h.returned[j].notifier < |h.leases|
    {
      assert DupRight(h, j);
    }
    assert Before(h.returned, last, r.notifier) <==> r.notifier < |h.leases|;
    assert DupRight(h', last);
    forall n | 0 <= n < |h'.leases|
      ensures Before(h'.returned, |h'.returned|, n)
    {
      assert h'.returned[last].notifier == r.notifier;
      if n != r.notifier {
        assert Before(h.returned, last, n);
        BeforePrefix(h.returned, h'.returned, last, n);
      }
    }
  }

  lemma BeforePrefix(a: seq<Returned>, b: seq<Returned>, i: nat, n: nat)
    requires a <= b && i <= |a|
    ensures Before(a, i, n) == Before(b, i, n)
  {
  }

  lemma SameDups(h: OutLog, h': OutLog)
    requires DupsRight(h) && h.requests <= h'.requests && h'.returned == h.returned && h'.leases == h.leases
    ensures DupsRight(h')
  {
    assert forall i :: 0 <= i < |h.returned| && DupRight(h, i) ==> DupRight(h', i);
  }

  lemma NextKeepsDups(w: World, due: bool)
    requires LeasesExact(w.s.pool, w.s.inflight) && ReplayExact(w.s.inflight, true) && DupsRight(w.outlog)
    requires RequestsKept(w.s.ch.pub1, w.s.inflight.publishes, w.s.notices, w.outlog)
    ensures DupsRight(StepNext(w, due).outlog)
  {
    hide NextPacket, DupsRight, LeasesExact, Conserved, InOrder, Lease;
    var kind := NextKind(w.s, due);
    var v := StepNext(w, due);
    var f, h := w.s.inflight, w.outlog;
    if kind.Replays? {
      var k := |f.publishes| - |f.replay|;
      var entry := f.publishes[k];
      assert EntryOk(h, entry);
      assert f.replay[0] == WithDup(entry.value.publish);
      assert Find(f.publishes, entry.id) == k;
      ReturnKeepsDups(h, v.outlog, Returned(entry.value.notifier, WithDup(f.replay[0])));
    } else if kind.FirstSend? {
      var r := w.s.ch.pub1[0];
      assert r == h.requests[|h.leases|];
      var sent := Sent(ToPublish(r, Acked(kind.id, false)), r.notifier);
      InsertedHolder(f.publishes, kind.id, sent, |h.requests|);
      ReturnKeepsDups(h, v.outlog, Returned(r.notifier, sent.publish));
    } else {
      SameDups(h, v.outlog);
    }
  }

  lemma InsertedHolder(publishes: seq<Entry<Sent>>, id: PacketId, sent: Sent, nobody: nat)
    ensures HolderOf(Insert(publishes, id, sent), id, nobody) == sent.notifier
  {
    var after := Insert(publishes, id, sent);
    var i := Find(publishes, id);
    assert after[i].id == id && forall j :: 0 <= j < i ==> after[j].id != id;
    assert Find(after, id) == i;
  }

  // --- The order of a connection ---

  predicate IsRepeat(packet: Outgoing) {
    IsAckedPublish(packet) && packet.packet.publish.delivery.dup
  }

  /** So far, this connection has given out what it had to replay, then the rest. */
  ghost predicate ReplayFirst(h: OutLog, replay: seq<Publish>) {
    && |replay| <= |h.replaying|
    && var done := |h.replaying| - |replay|;
      && replay == h.replaying[done..]
      && done <= |h.outputs| && (replay != [] ==> |h.outputs| == done)
      && (forall i :: 0 <= i < |h.replaying| ==> WithDup(h.replaying[i]) == h.replaying[i])
      && (forall i :: 0 <= i < done ==> h.outputs[i] == Control(PublishPacket(h.replaying[i])))
      && (forall i :: done <= i < |h.outputs| ==> !IsRepeat(h.outputs[i]))
  }

  lemma ReplayedKeepsOrder(h: OutLog, replay: seq<Publish>, h': OutLog)
    requires ReplayFirst(h, replay) && replay != [] && h'.replaying == h.replaying
    requires h'.outputs == h.outputs + [Control(PublishPacket(WithDup(replay[0])))]
    ensures ReplayFirst(h', replay[1..])
  {
  }

  lemma NewKeepsOrder(h: OutLog, packet: Outgoing, h': OutLog)
    requires ReplayFirst(h, []) && h'.replaying == h.replaying && !IsRepeat(packet)
    requires h'.outputs == h.outputs + [packet]
    ensures ReplayFirst(h', [])
  {
  }

  lemma NextKeepsOrder(w: World, due: bool)
    requires ReplayFirst(w.outlog, w.s.inflight.replay)
    ensures ReplayFirst(StepNext(w, due).outlog, StepNext(w, due).s.inflight.replay)
  {
    hide NextPacket, Lease, Insert, Find, ReplayFirst;
    var kind := NextKind(w.s, due);
    var out, v := NextPacket(w.s, due).1, StepNext(w, due);
    if kind.Replays? {
      ReplayedKeepsOrder(w.outlog, w.s.inflight.replay, v.outlog);
    } else if out.Sending? {
      NewKeepsOrder(w.outlog, out.packet, v.outlog);
    }
  }

  ghost predicate SendingRight(w: World) {
    && DupsRight(w.outlog)
    && (w.s.link.connected ==> ReplayFirst(w.outlog, w.s.inflight.replay))
  }

  lemma StepKeepsSending(w: World, e: Event)
    requires Enabled(w, e) && SendingRight(w)
    requires LeasesExact(w.s.pool, w.s.inflight) && ReplayExact(w.s.inflight, w.s.link.connected)
    requires RequestsKept(w.s.ch.pub1, w.s.inflight.publishes, w.s.notices, w.outlog)
    ensures SendingRight(Step(w, e))
  {
    hide StepNext, RequestsKept, LeasesExact, DupsRight, ReplayFirst, CompletePublish;
    if Elsewhere(e) {
      hide Step;
      ElsewhereKeeps(w, e);
      return;
    }
    match e {
      case SubmitPublish(_, _, _, _) =>
        var v := Step(w, e);
        SameDups(w.outlog, v.outlog);
        SameOrder(w.outlog, v.outlog, w.s.inflight.replay);
      case Next(due) =>
        NextKeepsDups(w, due);
        NextKeepsOrder(w, due);
      case InPubAck(puback) =>
        assert CompletePublish(w.s, puback).0.inflight.replay == w.s.inflight.replay by {
          ReplayKept(w.s, puback);
        }
      case InConnAck(_, _, _) =>
        var v := Step(w, e);
        SameDups(w.outlog, v.outlog);
        if v.s.link.connected {
          NewConnection(v);
        }
      case _ =>
    }
  }

  lemma ReplayKept(s: State, puback: PubAck)
    ensures CompletePublish(s, puback).0.inflight.replay == s.inflight.replay && CompletePublish(s, puback).0.link == s.link
  {
  }

  lemma SameOrder(h: OutLog, h': OutLog, replay: seq<Publish>)
    requires h'.replaying == h.replaying && h'.outputs == h.outputs
    ensures ReplayFirst(h, replay) == ReplayFirst(h', replay)
  {
  }

  lemma NewConnection(v: World)
    requires v.outlog.outputs == [] && v.outlog.replaying == v.s.inflight.replay
    requires IsTail(v.s.inflight.publishes, v.s.inflight.replay)
    ensures ReplayFirst(v.outlog, v.s.inflight.replay)
  {
  }

  lemma {:induction false} SendingAlwaysRight(ws: seq<World>, es: seq<Event>, i: nat)
    requires Run(ws, es) && i < |ws|
    requires forall k :: 0 <= k < i ==> KindMatches(ws[k].s, es[k]) && NotBeforeReplay(ws[k].s, es[k])
    ensures SendingRight(ws[i])
  {
    hide Step, RequestsKept, LeasesExact, ReplayExact;
    if i > 0 {
      SendingAlwaysRight(ws, es, i - 1);
      LeasesAlwaysExact(ws, es, i - 1);
      RequestsAlwaysKept(ws, es, i - 1);
      ReplayAlwaysExact(ws, es, i - 1);
      StepKeepsSending(ws[i - 1], es[i - 1]);
    }
  }

  /** A CONNACK that begins a connection. */
  predicate Begins(e: Event) {
    e.InConnAck? && Accepts(e.connack, e.asked, e.lenient)
  }

  /**
   * On every connection, begun at step `c`, the PUBLISHes that were unacknowledged at its beginning come first, in the
   * order of their first sends and with DUP set; nothing after them is a repeat.
   */
  lemma UnacknowledgedComeFirst(ws: seq<World>, es: seq<Event>, c: nat, i: nat)
    requires Run(ws, es) && c < i < |ws|
    requires forall k :: 0 <= k < i ==> KindMatches(ws[k].s, es[k]) && NotBeforeReplay(ws[k].s, es[k])
    requires Begins(es[c]) && ws[i].s.link.connected && forall k :: c < k < i ==> !Begins(es[k])
    ensures var unacknowledged := ws[c + 1].s.inflight.publishes; var outputs := ws[i].outlog.outputs;
      && InOrder(unacknowledged)
      && forall k :: 0 <= k < |outputs| ==>
        if k < |unacknowledged| then outputs[k] == Control(PublishPacket(ReplayOf(unacknowledged)[k]))
        else !IsRepeat(outputs[k])
  {
    hide Step, RequestsKept, LeasesExact;
    RequestsAlwaysKept(ws, es, c + 1);
    assert InOrder(ws[c + 1].s.inflight.publishes) by {
      KeptInOrder(ws[c + 1]);
    }
    ReplayAlwaysExact(ws, es, c);
    BeginsWithAll(ws[c], es[c]);
    SameConnection(ws, es, c, i);
    SendingAlwaysRight(ws, es, i);
  }

  lemma KeptInOrder(w: World)
    requires RequestsKept(w.s.ch.pub1, w.s.inflight.publishes, w.s.notices, w.outlog)
    ensures InOrder(w.s.inflight.publishes)
  {
  }

  /** When a connection begins, everything in flight is to be replayed. */
  lemma BeginsWithAll(w: World, e: Event)
    requires Enabled(w, e) && Begins(e) && ReplayExact(w.s.inflight, w.s.link.connected)
    ensures Step(w, e).outlog.replaying == ReplayOf(Step(w, e).s.inflight.publishes)
  {
  }

  lemma {:induction false} SameConnection(ws: seq<World>, es: seq<Event>, c: nat, i: nat)
    requires Run(ws, es) && c < i < |ws|
    requires forall k :: c < k < i ==> !Begins(es[k])
    ensures ws[i].outlog.replaying == ws[c + 1].outlog.replaying
  {
    if i > c + 1 {
      SameConnection(ws, es, c, i - 1);
      KeepsReplaying(ws[i - 1], es[i - 1]);
    }
  }

  lemma KeepsReplaying(w: World, e: Event)
    requires Enabled(w, e) && !Begins(e)
    ensures Step(w, e).outlog.replaying == w.outlog.replaying
  {
  }

  /**
   * Over all connections, a PUBLISH is given out with DUP clear exactly the first time its request is given out, and is
   * otherwise the same each time.
   */
  lemma DupMarksRepeats(ws: seq<World>, es: seq<Event>, i: nat, k: nat)
    requires Run(ws, es) && i < |ws| && k < |ws[i].outlog.returned|
    requires forall k :: 0 <= k < i ==> KindMatches(ws[k].s, es[k]) && NotBeforeReplay(ws[k].s, es[k])
    ensures var h := ws[i].outlog; var n := h.returned[k].notifier;
      && n < |h.leases| && n < |h.requests|
      && SameMessage(h.returned[k].publish, h.requests[n].topic, h.requests[n].payload, h.requests[n].retain, h.requests[n].properties)
      && h.returned[k].publish.delivery == Acked(h.leases[n], exists j :: 0 <= j < k && h.returned[j].notifier == n)
  {
    SendingAlwaysRight(ws, es, i);
    assert DupRight(ws[i].outlog, k);
  }

  // --- What goes wrong otherwise ---

  const HELLO := InConnAck(ConnAck(Accepted(true), None, None, None), Asked(Off, None, SessionExpiry.Infinite), false)
  const EARLY := PubAck(1, SUCCESS, NO_PUBACK_PROPERTIES)

  /** A PUBLISH is sent, the connection is lost, and the server acknowledges on the next one before it is replayed. */
  const TOO_EARLY: seq<Event> := [HELLO, SUBMIT, Next(false), Lose, HELLO, InPubAck(EARLY), Next(false)]

  lemma Greets(w: World)
    requires w == NewWorld(1)
    ensures Enabled(w, HELLO) && ReadyToSend(Step(w, HELLO)) && Step(w, HELLO).s.link.connected && Step(w, HELLO).s.link.expiry.Infinite?
    ensures Step(w, HELLO).s.ch == NO_REQUESTS.(disconnect := Waiting)
  {
  }

  lemma LosesAndResumes(w: World) returns (u: World, v: World)
    requires w.s.link.connected && w.s.link.expiry.Infinite?
    requires |w.s.inflight.publishes| == 1 && w.s.inflight.publishes[0].id == 1
    requires w.s.pool == Pool(1, 1, {1}) && LeasesExact(w.s.pool, w.s.inflight)
    ensures u == Step(w, Lose) && !u.s.link.connected && v == Step(u, HELLO) && v.s.link.connected
    ensures v.s.inflight.publishes == w.s.inflight.publishes && v.s.inflight.replay == ReplayOf(w.s.inflight.publishes)
    ensures v.s.pool == Pool(1, 1, {1}) && v.outlog.outputs == []
  {
    u := Step(w, Lose);
    DisconnectKeepsLeases(w.s);
    v := Step(u, HELLO);
  }

  lemma AcksAndReplays(w: World) returns (u: World, v: World)
    requires w.s.link.connected && w.s.pool == Pool(1, 1, {1}) && w.outlog.outputs == []
    requires |w.s.inflight.publishes| == 1 && w.s.inflight.publishes[0].id == 1
    requires InflightOk(w.s.inflight.publishes)
    requires w.s.inflight.replay == ReplayOf(w.s.inflight.publishes)
    ensures u == Step(w, InPubAck(EARLY)) && u.s.link.connected && v == Step(u, Next(false))
    ensures !NotBeforeReplay(w.s, InPubAck(EARLY))
    ensures v.s.inflight.publishes == [] && v.s.pool.leased == {} && |v.outlog.outputs| == 1 && IsRepeat(v.outlog.outputs[0])
  {
    u := Step(w, InPubAck(EARLY));
    assert Find(w.s.inflight.publishes, 1) == 0;
    assert w.s.inflight.replay[0].delivery.id == 1;
    v := StepNext(u, false);
  }

  /** The acknowledged PUBLISH is then sent again, although nothing is in flight and its identifier is free. */
  lemma TooEarlyRepeatsAnAcknowledged() returns (ws: seq<World>)
    ensures Run(ws, TOO_EARLY) && !NotBeforeReplay(ws[5].s, TOO_EARLY[5])
    ensures ws[7].s.inflight.publishes == [] && ws[7].s.pool.leased == {}
    ensures |ws[7].outlog.outputs| == 1 && IsRepeat(ws[7].outlog.outputs[0])
  {
    hide Step, LeasesExact, ReplayHas, InflightOk, IsTail, ReadyToSend, Run, Enabled;
    var w0 := NewWorld(1);
    Greets(w0);
    var w1 := Step(w0, HELLO);
    var w2, w3 := Publishes(w1);
    ThreeSteps(w0, w1, w2, w3);
    LeasesAlwaysExact([w0, w1, w2, w3], TOO_EARLY[..3], 3);
    ReplayAlwaysExact([w0, w1, w2, w3], TOO_EARLY[..3], 3);
    var w4, w5 := LosesAndResumes(w3);
    var w6, w7 := AcksAndReplays(w5);
    SevenSteps(w0, w1, w2, w3, w4, w5, w6, w7);
    ws := [w0, w1, w2, w3, w4, w5, w6, w7];
  }

  lemma ThreeSteps(w0: World, w1: World, w2: World, w3: World)
    requires w0 == NewWorld(1) && Enabled(w0, HELLO) && w1 == Step(w0, HELLO) && w1.s.link.connected
    requires w2 == Step(w1, SUBMIT) && w2.s.link.connected && w3 == Step(w2, Next(false))
    ensures Run([w0, w1, w2, w3], TOO_EARLY[..3])
    ensures forall k :: 0 <= k < 3 ==> KindMatches([w0, w1, w2, w3][k].s, TOO_EARLY[k]) && NotBeforeReplay([w0, w1, w2, w3][k].s, TOO_EARLY[k])
  {
    hide Step;
  }

  lemma SevenSteps(w0: World, w1: World, w2: World, w3: World, w4: World, w5: World, w6: World, w7: World)
    requires w0 == NewWorld(1) && Enabled(w0, HELLO) && w1 == Step(w0, HELLO) && w1.s.link.connected
    requires w2 == Step(w1, SUBMIT) && w2.s.link.connected && w3 == Step(w2, Next(false)) && w3.s.link.connected
    requires w4 == Step(w3, Lose) && !w4.s.link.connected && w5 == Step(w4, HELLO) && w5.s.link.connected
    requires w6 == Step(w5, InPubAck(EARLY)) && w6.s.link.connected && w7 == Step(w6, Next(false))
    ensures Run([w0, w1, w2, w3, w4, w5, w6, w7], TOO_EARLY)
  {
    hide Step;
  }
}
