/**
 * Packet identifiers and the requests they are leased for, over any number of connections.
 *
 * An identifier is leased exactly while one operation is in flight with it, and a QoS 1 publish request is waiting, in
 * flight, or resolved, but never two of these and never resolved twice.
 */
module Identifiers {
  import opened Wrappers
  import opened Packets
  import opened PkidPool
  import opened OrderedMap
  import opened SessionState
  import opened AckOrder
  import opened Runs

  // --- Leases ---

  /** The leased identifiers are the disjoint union of those in flight. */
  ghost predicate LeasesExact(pool: Pool, f: Inflight) {
    && Distinct(f.publishes)
    && Ids(f.publishes) !! f.subscribes.Keys !! f.unsubscribes.Keys
    && pool.leased == Ids(f.publishes) + f.subscribes.Keys + f.unsubscribes.Keys
  }

  lemma NextKeepsLeases(s: State, due: bool)
    requires LeasesExact(s.pool, s.inflight)
    ensures LeasesExact(NextPacket(s, due).0.pool, NextPacket(s, due).0.inflight)
  {
    hide NextPacket, Lease, Insert;
    var kind := NextKind(s, due);
    LeaseIsFirstFree(s.pool);
    var f, g := s.inflight, NextPacket(s, due).0.inflight;
    if kind.Subscribes? {
      assert Adds(f.subscribes, g.subscribes, kind.id) ==> g.subscribes.Keys == f.subscribes.Keys + {kind.id} by {
        AddsKey(f.subscribes, g.subscribes, kind.id);
      }
      assert Adds(f.unsubscribes, g.unsubscribes, kind.id) ==> g.unsubscribes.Keys == f.unsubscribes.Keys + {kind.id} by {
        AddsKey(f.unsubscribes, g.unsubscribes, kind.id);
      }
    } else if kind.FirstSend? {
      var r := s.ch.pub1[0];
      InsertIds(s.inflight.publishes, kind.id, Sent(ToPublish(r, Acked(kind.id, false)), r.notifier));
    }
  }

  lemma AddsKey(before: map<PacketId, nat>, after: map<PacketId, nat>, id: PacketId)
    ensures Adds(before, after, id) ==> after.Keys == before.Keys + {id}
  {
    if Adds(before, after, id) {
      forall k | k != id
        ensures k in after <==> k in before
      {
        assert k in after <==> k in after - {id};
        assert k in before <==> k in before - {id};
      }
    }
  }

  lemma PubAckKeepsLeases(s: State, puback: PubAck)
    requires LeasesExact(s.pool, s.inflight)
    ensures var t := CompletePublish(s, puback).0;
      LeasesExact(t.pool, t.inflight) <==> puback.id !in s.inflight.subscribes && puback.id !in s.inflight.unsubscribes
  {
    RemoveIds(s.inflight.publishes, puback.id);
  }

  lemma DisconnectKeepsLeases(s: State)
    requires LeasesExact(s.pool, s.inflight)
    ensures LeasesExact(Disconnected(s).pool, Disconnected(s).inflight)
    ensures Disconnected(s).pool.leased == Ids(s.inflight.publishes)
  {
  }

  lemma ExpiryKeepsLeases(s: State)
    requires LeasesExact(s.pool, s.inflight)
    ensures LeasesExact(SessionExpired(s).pool, SessionExpired(s).inflight)
  {
  }

  /**
   * A step keeps the leases exact if and only if it is not an acknowledgement that names an identifier held by an
   * operation of another kind.
   */
  lemma LeasesKeptExactly(w: World, e: Event)
    requires Enabled(w, e) && LeasesExact(w.s.pool, w.s.inflight)
    ensures LeasesExact(Step(w, e).s.pool, Step(w, e).s.inflight) <==> KindMatches(w.s, e)
  {
    hide StepNext, LeasesExact, CompletePublish, CompleteSubscribe, CompleteUnsubscribe, SessionState.Disconnected, SessionExpired;
    if Elsewhere(e) {
      hide Step;
      ElsewhereKeeps(w, e);
      OnlyTheRest(w.s, Step(w, e).s);
      return;
    }
    match e {
      case Next(due) =>
        NextKeepsLeases(w.s, due);
        StepNextState(w, due);
      case InSubAck(id) => SubAckKeepsLeases(w.s, id);
      case InUnsubAck(id) => SubAckKeepsLeases(w.s, id);
      case InPubAck(puback) => PubAckKeepsLeases(w.s, puback);
      case Leave(d) => LostKeepsLeases(w.s, Or(d.properties.sessionExpiry, SessionState.Disconnected(w.s).link.expiry));
      case Lose => LostKeepsLeases(w.s, SessionState.Disconnected(w.s).link.expiry);
      case InConnAck(_, _, _) => ExpiryKeepsLeases(w.s);
      case _ =>
    }
  }

  lemma StepNextState(w: World, due: bool)
    ensures StepNext(w, due).s == NextPacket(w.s, due).0
  {
  }

  lemma OnlyTheRest(s: State, t: State)
    requires t.pool == s.pool && t.inflight == s.inflight.(auth := t.inflight.auth, pings := t.inflight.pings)
    ensures LeasesExact(t.pool, t.inflight) == LeasesExact(s.pool, s.inflight)
  {
  }

  lemma SubAckKeepsLeases(s: State, id: PacketId)
    requires LeasesExact(s.pool, s.inflight)
    ensures var t := CompleteSubscribe(s, id).0;
      LeasesExact(t.pool, t.inflight) <==> id !in s.inflight.unsubscribes && id !in Ids(s.inflight.publishes)
    ensures var t := CompleteUnsubscribe(s, id).0;
      LeasesExact(t.pool, t.inflight) <==> id !in s.inflight.subscribes && id !in Ids(s.inflight.publishes)
  {
  }

  lemma LostKeepsLeases(s: State, expiry: SessionExpiry)
    requires LeasesExact(s.pool, s.inflight)
    ensures var t := ExpireIfZero(Disconnected(s).(link := Disconnected(s).link.(expiry := expiry)));
      LeasesExact(t.pool, t.inflight)
  {
  }

  /** In every run against a server whose acknowledgements match, the leases are exact at all times. */
  lemma {:induction false} LeasesAlwaysExact(ws: seq<World>, es: seq<Event>, i: nat)
    requires Run(ws, es) && i < |ws|
    requires forall k :: 0 <= k < i ==> KindMatches(ws[k].s, es[k])
    ensures LeasesExact(ws[i].s.pool, ws[i].s.inflight)
  {
    hide Step;
    if i > 0 {
      LeasesAlwaysExact(ws, es, i - 1);
      LeasesKeptExactly(ws[i - 1], es[i - 1]);
    }
  }

  // --- Requests ---

  function Holders(publishes: seq<Entry<Sent>>): (r: seq<nat>)
    ensures |r| == |publishes|
  {
    seq(|publishes|, i requires 0 <= i < |publishes| => publishes[i].value.notifier)
  }

  function Resolved(notices: seq<Notice>): (r: seq<nat>)
    ensures |r| == |notices|
  {
    seq(|notices|, i requires 0 <= i < |notices| => notices[i].notifier)
  }

  function Range(a: nat, b: nat): seq<nat>
    requires a <= b
  {
    seq(b - a, j requires 0 <= j < b - a => a + j)
  }

  /** The PUBLISH that a request is first sent as. */
  function FirstPublish(h: OutLog, n: nat): Publish
    requires n < |h.requests| && n < |h.leases|
  {
    ToPublish(h.requests[n], Acked(h.leases[n], false))
  }

  ghost predicate EntryOk(h: OutLog, e: Entry<Sent>) {
    var n := e.value.notifier;
    n < |h.leases| && n < |h.requests| && e.id == h.leases[n] && e.value.publish == FirstPublish(h, n)
  }

  ghost predicate NoticeOk(h: OutLog, n: Notice) {
    n.notifier < |h.leases| && (n.resolution.Completed? ==> n.resolution.puback.id == h.leases[n.notifier])
  }

  /** Requests wait, and are sent for the first time, in the order in which they were made. */
  ghost predicate Fifo(pub1: seq<PublishRequest>, h: OutLog) {
    && |h.leases| <= |h.requests| && pub1 == h.requests[|h.leases|..]
    && forall n :: 0 <= n < |h.requests| ==> h.requests[n].notifier == n
  }

  /** Those in flight are in the order of their first sends. */
  ghost predicate InOrder(publishes: seq<Entry<Sent>>) {
    forall i, j :: 0 <= i < j < |publishes| ==> publishes[i].value.notifier < publishes[j].value.notifier
  }

  /** Every request that was sent is in flight or resolved, once. */
  ghost predicate Conserved(publishes: seq<Entry<Sent>>, notices: seq<Notice>, sent: nat) {
    multiset(Holders(publishes)) + multiset(Resolved(notices)) == multiset(Range(0, sent))
  }

  ghost predicate RequestsKept(pub1: seq<PublishRequest>, publishes: seq<Entry<Sent>>, notices: seq<Notice>, h: OutLog) {
    && Fifo(pub1, h)
    && InOrder(publishes)
    && (forall i :: 0 <= i < |publishes| ==> EntryOk(h, publishes[i]))
    && (forall k :: 0 <= k < |notices| ==> NoticeOk(h, notices[k]))
    && Conserved(publishes, notices, |h.leases|)
  }

  lemma SubmitKeepsRequests(w: World, e: Event)
    requires e.SubmitPublish?
    requires RequestsKept(w.s.ch.pub1, w.s.inflight.publishes, w.s.notices, w.outlog)
    ensures var v := Step(w, e); RequestsKept(v.s.ch.pub1, v.s.inflight.publishes, v.s.notices, v.outlog)
  {
    var v := Step(w, e);
    forall i | 0 <= i < |w.s.inflight.publishes|
      ensures EntryOk(v.outlog, v.s.inflight.publishes[i])
    {
      assert EntryOk(w.outlog, w.s.inflight.publishes[i]);
    }
    forall k | 0 <= k < |w.s.notices|
      ensures NoticeOk(v.outlog, v.s.notices[k])
    {
      assert NoticeOk(w.outlog, w.s.notices[k]);
    }
  }

  lemma SendConserves(publishes: seq<Entry<Sent>>, notices: seq<Notice>, sent: nat, entry: Entry<Sent>)
    requires Conserved(publishes, notices, sent) && entry.value.notifier == sent
    ensures Conserved(publishes + [entry], notices, sent + 1)
  {
    assert Holders(publishes + [entry]) == Holders(publishes) + [sent];
    assert Range(0, sent + 1) == Range(0, sent) + [sent];
  }

  lemma SendKeepsOrder(publishes: seq<Entry<Sent>>, entry: Entry<Sent>, h: OutLog)
    requires InOrder(publishes) && (forall i :: 0 <= i < |publishes| ==> EntryOk(h, publishes[i]))
    requires entry.value.notifier == |h.leases|
    ensures InOrder(publishes + [entry])
  {
  }

  lemma FirstSendKeepsRequests(
    pub1: seq<PublishRequest>, publishes: seq<Entry<Sent>>, notices: seq<Notice>, h: OutLog, id: PacketId, h': OutLog)
    requires RequestsKept(pub1, publishes, notices, h)
    requires pub1 != [] && id !in Ids(publishes)
    requires h'.requests == h.requests && h'.leases == h.leases + [id]
    ensures var r := pub1[0];
      RequestsKept(pub1[1..], Insert(publishes, id, Sent(ToPublish(r, Acked(id, false)), r.notifier)), notices, h')
  {
    hide Conserved, InOrder;
    var r := pub1[0];
    var entry := Entry(id, Sent(ToPublish(r, Acked(id, false)), r.notifier));
    var after := publishes + [entry];
    assert Find(publishes, id) == |publishes|;
    assert r == h.requests[|h.leases|];
    SendConserves(publishes, notices, |h.leases|, entry);
    SendKeepsOrder(publishes, entry, h);
    forall i | 0 <= i < |after|
      ensures EntryOk(h', after[i])
    {
      assert i < |publishes| ==> EntryOk(h, publishes[i]);
    }
    forall k | 0 <= k < |notices|
      ensures NoticeOk(h', notices[k])
    {
      assert NoticeOk(h, notices[k]);
    }
  }

  lemma NextKeepsRequests(w: World, due: bool)
    requires LeasesExact(w.s.pool, w.s.inflight)
    requires RequestsKept(w.s.ch.pub1, w.s.inflight.publishes, w.s.notices, w.outlog)
    ensures var v := StepNext(w, due); RequestsKept(v.s.ch.pub1, v.s.inflight.publishes, v.s.notices, v.outlog)
  {
    hide NextPacket, Lease, RequestsKept, Insert;
    var kind := NextKind(w.s, due);
    var v := StepNext(w, due);
    LeaseIsFirstFree(w.s.pool);
    if kind.FirstSend? {
      FirstSendKeepsRequests(w.s.ch.pub1, w.s.inflight.publishes, w.s.notices, w.outlog, kind.id, v.outlog);
    } else {
      SameRequests(w.s.ch.pub1, w.s.inflight.publishes, w.s.notices, w.outlog, v.outlog);
    }
  }

  lemma SameRequests(pub1: seq<PublishRequest>, publishes: seq<Entry<Sent>>, notices: seq<Notice>, h: OutLog, h': OutLog)
    requires RequestsKept(pub1, publishes, notices, h)
    requires h'.requests == h.requests && h'.leases == h.leases
    ensures RequestsKept(pub1, publishes, notices, h')
  {
  }

  lemma PubAckConserves(publishes: seq<Entry<Sent>>, notices: seq<Notice>, sent: nat, i: nat, notice: Notice)
    requires Conserved(publishes, notices, sent) && i < |publishes| && notice.notifier == publishes[i].value.notifier
    ensures Conserved(publishes[..i] + publishes[i + 1..], notices + [notice], sent)
  {
    var before := Holders(publishes);
    assert Holders(publishes[..i] + publishes[i + 1..]) == before[..i] + before[i + 1..];
    assert before == before[..i] + [before[i]] + before[i + 1..];
    assert Resolved(notices + [notice]) == Resolved(notices) + [before[i]];
  }

  lemma RemovalKeepsOrder(publishes: seq<Entry<Sent>>, i: nat, h: OutLog)
    requires InOrder(publishes) && i < |publishes|
    requires forall j :: 0 <= j < |publishes| ==> EntryOk(h, publishes[j])
    ensures var after := publishes[..i] + publishes[i + 1..];
      InOrder(after) && forall j :: 0 <= j < |after| ==> EntryOk(h, after[j])
  {
  }

  lemma PubAckKeepsRequests(s: State, puback: PubAck, h: OutLog)
    requires RequestsKept(s.ch.pub1, s.inflight.publishes, s.notices, h)
    ensures var t := CompletePublish(s, puback).0; RequestsKept(t.ch.pub1, t.inflight.publishes, t.notices, h)
  {
    hide Conserved, Fifo, InOrder;
    var before := s.inflight.publishes;
    var i := Find(before, puback.id);
    if i < |before| {
      var notice := Notice(before[i].value.notifier, Completed(puback));
      PubAckConserves(before, s.notices, |h.leases|, i, notice);
      RemovalKeepsOrder(before, i, h);
      assert EntryOk(h, before[i]) && NoticeOk(h, notice);
    }
  }

  lemma CancelConserves(publishes: seq<Entry<Sent>>, notices: seq<Notice>, sent: nat)
    requires Conserved(publishes, notices, sent)
    ensures Conserved([], notices + Cancellations(publishes), sent)
  {
    assert Resolved(notices + Cancellations(publishes)) == Resolved(notices) + Holders(publishes);
    assert Holders([]) == [];
  }

  lemma ExpiryKeepsRequests(s: State, h: OutLog)
    requires RequestsKept(s.ch.pub1, s.inflight.publishes, s.notices, h)
    ensures var t := SessionExpired(s); RequestsKept(t.ch.pub1, t.inflight.publishes, t.notices, h)
  {
    hide Conserved, Fifo;
    var f := s.inflight;
    var t := SessionExpired(s);
    CancelConserves(f.publishes, s.notices, |h.leases|);
    forall k | 0 <= k < |t.notices|
      ensures NoticeOk(h, t.notices[k])
    {
      if k >= |s.notices| {
        assert EntryOk(h, f.publishes[k - |s.notices|]);
      } else {
        assert NoticeOk(h, s.notices[k]);
      }
    }
  }

  lemma StepKeepsRequests(w: World, e: Event)
    requires Enabled(w, e) && LeasesExact(w.s.pool, w.s.inflight)
    requires RequestsKept(w.s.ch.pub1, w.s.inflight.publishes, w.s.notices, w.outlog)
    ensures var v := Step(w, e); RequestsKept(v.s.ch.pub1, v.s.inflight.publishes, v.s.notices, v.outlog)
  {
    hide StepNext, RequestsKept, LeasesExact, CompletePublish, SessionExpired;
    if Elsewhere(e) {
      hide Step;
      ElsewhereKeeps(w, e);
      return;
    }
    match e {
      case SubmitPublish(_, _, _, _) => SubmitKeepsRequests(w, e);
      case Next(due) => NextKeepsRequests(w, due);
      case InPubAck(puback) =>
        PubAckKeepsRequests(w.s, puback, w.outlog);
      case Leave(d) =>
        var off := Disconnected(w.s);
        ExpiryKeepsRequests(off.(link := off.link.(expiry := Or(d.properties.sessionExpiry, off.link.expiry))), w.outlog);
      case Lose => ExpiryKeepsRequests(Disconnected(w.s), w.outlog);
      case InConnAck(_, _, _) =>
        ExpiryKeepsRequests(w.s, w.outlog);
        var v := Step(w, e);
        assert RequestsKept(v.s.ch.pub1, v.s.inflight.publishes, v.s.notices, w.outlog);
        SameRequests(v.s.ch.pub1, v.s.inflight.publishes, v.s.notices, w.outlog, v.outlog);
      case _ =>
    }
  }

  lemma NewRequestsKept(h: OutLog)
    requires h.requests == [] && h.leases == []
    ensures RequestsKept([], [], [], h)
  {
  }

  lemma {:induction false} RequestsAlwaysKept(ws: seq<World>, es: seq<Event>, i: nat)
    requires Run(ws, es) && i < |ws|
    requires forall k :: 0 <= k < i ==> KindMatches(ws[k].s, es[k])
    ensures RequestsKept(ws[i].s.ch.pub1, ws[i].s.inflight.publishes, ws[i].s.notices, ws[i].outlog)
  {
    hide Step, RequestsKept, LeasesExact;
    if i > 0 {
      RequestsAlwaysKept(ws, es, i - 1);
      LeasesAlwaysExact(ws, es, i - 1);
      StepKeepsRequests(ws[i - 1], es[i - 1]);
    } else {
      NewRequestsKept(ws[0].outlog);
    }
  }

  function Queued(pub1: seq<PublishRequest>): (r: seq<nat>)
    ensures |r| == |pub1|
  {
    seq(|pub1|, i requires 0 <= i < |pub1| => pub1[i].notifier)
  }

  /**
   * In every run against a server whose acknowledgements match, each request ever made is in exactly one place: in the
   * queue, in flight with the identifier leased for it, or resolved, once, by a PUBACK for that identifier or because
   * the session expired.
   */
  lemma EachRequestInOnePlace(ws: seq<World>, es: seq<Event>, i: nat, n: nat)
    requires Run(ws, es) && i < |ws| && n < |ws[i].outlog.requests|
    requires forall k :: 0 <= k < i ==> KindMatches(ws[k].s, es[k])
    ensures var s, h := ws[i].s, ws[i].outlog;
      && multiset(Queued(s.ch.pub1))[n] + multiset(Holders(s.inflight.publishes))[n] + multiset(Resolved(s.notices))[n] == 1
      && (forall e :: e in s.inflight.publishes ==> EntryOk(h, e))
      && (forall m :: m in s.notices ==> NoticeOk(h, m))
  {
    RequestsAlwaysKept(ws, es, i);
    var s, sent := ws[i].s, |ws[i].outlog.leases|;
    RangeOnce(0, sent, n);
    RangeOnce(sent, |ws[i].outlog.requests|, n);
    assert Queued(s.ch.pub1) == Range(sent, |ws[i].outlog.requests|);
  }

  lemma {:induction false} RangeOnce(a: nat, b: nat, n: nat)
    requires a <= b
    ensures multiset(Range(a, b))[n] == if a <= n < b then 1 else 0
  {
    if a < b {
      RangeOnce(a, b - 1, n);
      assert Range(a, b) == Range(a, b - 1) + [b - 1];
    }
  }

  // --- An acknowledgement undoes the send ---

  /** The acknowledgement that a packet asks for. */
  function Acknowledged(s: State, packet: Outgoing, puback: PubAck): (State, Result<(), ProtocolError>) {
    match packet
    case Unsubscribe(id, _, _) => CompleteUnsubscribe(s, id)
    case Control(SubscribePacket(p)) => CompleteSubscribe(s, p.id)
    case Control(PublishPacket(p)) => CompletePublish(s, puback)
    case _ => (s, Success(()))
  }

  /** What is in flight and leased is the same. */
  ghost predicate SameInflight(s: State, t: State) {
    && t.pool.leased == s.pool.leased && t.inflight.publishes == s.inflight.publishes
    && t.inflight.subscribes == s.inflight.subscribes && t.inflight.unsubscribes == s.inflight.unsubscribes
  }

  /**
   * A SUBSCRIBE, UNSUBSCRIBE or first PUBLISH followed by its acknowledgement: the acknowledgement is accepted, and
   * what is in flight and leased is as it was before the packet.
   */
  lemma AckUndoesSend(s: State, due: bool, puback: PubAck)
    requires LeasesExact(s.pool, s.inflight) && s.inflight.replay == []
    requires var out := NextPacket(s, due).1;
      out.Sending? && IsAckedPublish(out.packet) ==> puback.id == out.packet.packet.publish.delivery.id
    ensures var (sent, out) := NextPacket(s, due);
      out.Sending? && AwaitsAck(out.packet) ==>
        var (after, r) := Acknowledged(sent, out.packet, puback);
        && r.Success? && SameInflight(s, after)
        && (IsAckedPublish(out.packet) ==>
          s.ch.pub1 != [] && after.notices == s.notices + [Notice(s.ch.pub1[0].notifier, Completed(puback))])
  {
    hide NextPacket, CompletePublish, CompleteSubscribe, CompleteUnsubscribe, SameInflight, LeasesExact, Lease;
    var kind := NextKind(s, due);
    var (sent, out) := NextPacket(s, due);
    match kind {
      case FirstSend(id) => PubAckUndoesSend(s, sent, out, id, puback);
      case Subscribes(id) => SubAckUndoesSend(s, sent, out, id);
      case _ =>
    }
  }

  lemma PubAckUndoesSend(s: State, sent: State, out: Output, id: PacketId, puback: PubAck)
    requires LeasesExact(s.pool, s.inflight) && NextIs(s, sent, out, FirstSend(id)) && puback.id == id
    ensures var (after, r) := CompletePublish(sent, puback);
      && r.Success? && SameInflight(s, after)
      && after.notices == s.notices + [Notice(s.ch.pub1[0].notifier, Completed(puback))]
  {
    hide Lease, Insert, Remove;
    LeaseIsFirstFree(s.pool);
    FreshIsAbsent(s.pool, s.inflight, id);
    var r := s.ch.pub1[0];
    RemoveInserted(s.inflight.publishes, id, Sent(ToPublish(r, Acked(id, false)), r.notifier));
  }

  lemma SubAckUndoesSend(s: State, sent: State, out: Output, id: PacketId)
    requires LeasesExact(s.pool, s.inflight) && NextIs(s, sent, out, Subscribes(id))
    ensures out.packet.Unsubscribe? ==>
      out.packet.id == id && CompleteUnsubscribe(sent, id).1.Success? && SameInflight(s, CompleteUnsubscribe(sent, id).0)
    ensures !out.packet.Unsubscribe? ==>
      && out.packet.Control? && out.packet.packet.SubscribePacket? && out.packet.packet.subscribe.id == id
      && CompleteSubscribe(sent, id).1.Success? && SameInflight(s, CompleteSubscribe(sent, id).0)
  {
    hide Lease;
    LeaseIsFirstFree(s.pool);
    FreshIsAbsent(s.pool, s.inflight, id);
  }

  lemma FreshIsAbsent(pool: Pool, f: Inflight, id: PacketId)
    requires LeasesExact(pool, f) && id !in pool.leased
    ensures id !in Ids(f.publishes) && f.subscribes - {id} == f.subscribes && f.unsubscribes - {id} == f.unsubscribes
  {
  }

  lemma RemoveInserted(publishes: seq<Entry<Sent>>, id: PacketId, sent: Sent)
    requires id !in Ids(publishes)
    ensures var more := Insert(publishes, id, sent);
      && Remove(more, id) == publishes
      && Find(more, id) < |more| && more[Find(more, id)].value == sent
  {
    var more := publishes + [Entry(id, sent)];
    assert forall i :: 0 <= i < |publishes| ==> more[i] == publishes[i] && more[i].id != id;
    assert more[|publishes|].id == id;
    assert Find(more, id) == |publishes|;
  }

  // --- What goes wrong otherwise ---

  const PLAIN := PublishProperties(false, None, None, None, None, [], [], None)
  const WELCOME := InConnAck(ConnAck(Accepted(false), None, None, None), Asked(Off, None, Duration(0)), false)

  const SUBMIT := SubmitPublish([], [], false, PLAIN)

  /** The client sends a PUBLISH with identifier 1, the server answers with a SUBACK for it, and the client publishes again. */
  const MISMATCH: seq<Event> := [WELCOME, SUBMIT, Next(false), InSubAck(1), SUBMIT, Next(false)]

  lemma OnlyIdentifier()
    ensures Lease(Pool(1, 1, {})) == (Pool(1, 1, {1}), Some(1))
  {
    var p: Pool := Pool(1, 1, {});
    var one: PacketId := 1;
    LeaseIsFirstFree(p);
    assert one !in p.leased && p.leased + {one} == {1};
    assert Lease(p).1.value == 1;
  }

  ghost predicate ReadyToSend(w: World) {
    && w.s.pool == Pool(1, 1, {}) && w.s.link.connected
    && w.s.inflight.replay == [] && w.s.tracker == [] && w.s.notices == []
    && w.s.ch == NO_REQUESTS.(disconnect := Waiting)
    && |w.s.inflight.publishes| <= 1 && forall e :: e in w.s.inflight.publishes ==> e.id == 1
  }

  lemma Publishes(w: World) returns (u: World, v: World)
    requires ReadyToSend(w)
    ensures u == Step(w, SUBMIT) && u.s.link.connected && v == Step(u, Next(false))
    ensures v.s.pool == Pool(1, 1, {1}) && v.s.link == w.s.link && v.s.inflight.replay == [] && v.s.tracker == []
    ensures v.s.ch == w.s.ch && v.s.notices == [] && |v.outlog.requests| == |w.outlog.requests| + 1
    ensures |v.s.inflight.publishes| == 1
    ensures v.s.inflight.publishes[0].id == 1 && v.s.inflight.publishes[0].value.notifier == |w.outlog.requests|
  {
    hide Lease, Settle, SkipStale;
    OnlyIdentifier();
    u := Step(w, SUBMIT);
    var f := u.s.inflight.publishes;
    assert |f| == 1 ==> f[0] in f && Find(f, 1) == 0;
    var (polled, next) := NextRequest(u.s, false);
    assert next == Chosen(PublishAcked(u.s.ch.pub1[0], 1));
    v := StepNext(u, false);
  }

  lemma Connects(w: World)
    requires w == NewWorld(1)
    ensures Enabled(w, WELCOME) && ReadyToSend(Step(w, WELCOME)) && Step(w, WELCOME).s.link.connected && Step(w, WELCOME).outlog.requests == []
    ensures Step(w, WELCOME).s.ch == NO_REQUESTS.(disconnect := Waiting)
  {
  }

  lemma WrongAnswer(w: World) returns (v: World)
    requires w.s.pool == Pool(1, 1, {1}) && w.s.link.connected && w.s.ch == NO_REQUESTS.(disconnect := Waiting)
    requires w.s.inflight.replay == [] && w.s.tracker == [] && w.s.notices == []
    requires |w.s.inflight.publishes| == 1 && w.s.inflight.publishes[0].id == 1
    ensures v == Step(w, InSubAck(1)) && ReadyToSend(v) && v.outlog == w.outlog && !KindMatches(w.s, InSubAck(1))
    ensures v.s.inflight.publishes == w.s.inflight.publishes && v.s.link.connected && v.s.pool.leased == {} && v.s.ch == w.s.ch
  {
    v := Step(w, InSubAck(1));
  }

  /** The identifier is then free while a PUBLISH is in flight with it, and the first request ends up nowhere. */
  lemma MismatchLosesARequest() returns (ws: seq<World>)
    ensures Run(ws, MISMATCH) && !KindMatches(ws[3].s, MISMATCH[3])
    ensures 1 in Ids(ws[4].s.inflight.publishes) && ws[4].s.pool.leased == {}
    ensures |ws[6].outlog.requests| == 2 && ws[6].s.notices == []
    ensures 0 !in Queued(ws[6].s.ch.pub1) && 0 !in Holders(ws[6].s.inflight.publishes)
  {
    hide Step, KindMatches, ReadyToSend, Run, Enabled;
    var w0 := NewWorld(1);
    Connects(w0);
    var w1 := Step(w0, WELCOME);
    var w2, w3 := Publishes(w1);
    var w4 := WrongAnswer(w3);
    var w5, w6 := Publishes(w4);
    SixSteps(w0, w1, w2, w3, w4, w5, w6);
    ws := [w0, w1, w2, w3, w4, w5, w6];
    assert Holders(w6.s.inflight.publishes)[0] == 1;
  }

  lemma SixSteps(w0: World, w1: World, w2: World, w3: World, w4: World, w5: World, w6: World)
    requires w0 == NewWorld(1) && w1.s.link.connected && w2.s.link.connected && w3.s.link.connected && w4.s.link.connected
    requires w5.s.link.connected && Enabled(w0, WELCOME) && w1 == Step(w0, WELCOME) && w2 == Step(w1, SUBMIT) && w3 == Step(w2, Next(false))
    requires w4 == Step(w3, InSubAck(1)) && w5 == Step(w4, SUBMIT) && w6 == Step(w5, Next(false))
    ensures Run([w0, w1, w2, w3, w4, w5, w6], MISMATCH)
  {
    hide Step;
  }
}
