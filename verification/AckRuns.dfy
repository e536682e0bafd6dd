/**
 * Acknowledgements over whole runs: section 4.6 of MQTT Version 5.0.
 *
 * However tokens are used and dropped, each received PUBLISH is owned once until it is acknowledged, and the PUBACKs of
 * a connection answer its PUBLISHes in the order in which they came.
 */
module AckRuns {
  import opened Wrappers
  import opened Packets
  import opened OrderedMap
  import opened SessionState
  import opened AckOrder
  import opened Runs

  /** Tokens are distinct, unused, and not from the future. */
  ghost predicate TokensOk(tokens: seq<Token>, answers: map<nat, PubAck>, epoch: nat, issued: nat) {
    && (forall i :: 0 <= i < |tokens| ==> tokens[i].serial < issued && tokens[i].epoch <= epoch && tokens[i].serial !in answers)
    && (forall i, j :: 0 <= i < j < |tokens| ==> tokens[i].serial != tokens[j].serial)
    && (forall n :: n in answers ==> n < issued)
  }

  /** The PUBLISHes of this connection, each received once. */
  ghost predicate ReceivedOk(received: seq<Token>, epoch: nat, issued: nat) {
    && (forall i :: 0 <= i < |received| ==> received[i].epoch == epoch && received[i].serial < issued)
    && (forall i, j :: 0 <= i < j < |received| ==> received[i].serial < received[j].serial)
  }

  /** The acknowledgements given out are the application's answers to the first PUBLISHes, in order. */
  ghost predicate AckedInOrder(h: InLog) {
    && |h.acked| <= |h.received|
    && forall i :: 0 <= i < |h.acked| ==>
      && h.received[i].serial in h.answers
      && h.acked[i] == h.answers[h.received[i].serial]
      && h.acked[i].id == h.received[i].id
  }

  function Pending(h: InLog): seq<Token> {
    if |h.acked| <= |h.received| then h.received[|h.acked|..] else []
  }

  ghost predicate AcksRight(w: World) {
    var s, h := w.s, w.inlog;
    && TokensOk(w.tokens, h.answers, s.link.epoch, s.issued)
    && (forall a :: a in s.ch.acks ==> a.epoch <= s.link.epoch)
    && AllRecorded(h.answers, s.ch.acks, s.tracker)
    && (!s.link.connected ==> s.tracker == [])
    && (s.link.connected ==>
      && ReceivedOk(h.received, s.link.epoch, s.issued)
      && AckedInOrder(h)
      && Owned(multiset(w.tokens), s.ch.acks, s.tracker, s.link.epoch, Pending(h)))
  }

  // --- One packet out ---

  lemma NothingStale(tokens: multiset<Token>, s: State, pending: seq<Token>)
    requires Owned(tokens, s.ch.acks, s.tracker, s.link.epoch, pending)
    ensures SkipStale(s.tracker, s.link.epoch) == s.tracker
  {
  }

  predicate IsPubAck(out: Output) {
    out.Sending? && out.packet.Control? && out.packet.packet.PubAckPacket?
  }

  /** What one call of `NextPacket` does to the acknowledgements. */
  ghost predicate NextAnswers(tokens: multiset<Token>, after: State, out: Output, epoch: nat, pending: seq<Token>, answers: map<nat, PubAck>) {
    && !out.Panic?
    && AllRecorded(answers, after.ch.acks, after.tracker)
    && if IsPubAck(out) then
      && pending != [] && pending[0].serial in answers
      && out.packet.packet.puback == answers[pending[0].serial] && out.packet.packet.puback.id == pending[0].id
      && Owned(tokens, after.ch.acks, after.tracker, epoch, pending[1..])
    else Owned(tokens, after.ch.acks, after.tracker, epoch, pending)
  }

  lemma NextKeepsAcks(tokens: multiset<Token>, s: State, due: bool, pending: seq<Token>, answers: map<nat, PubAck>)
    requires Owned(tokens, s.ch.acks, s.tracker, s.link.epoch, pending) && AllRecorded(answers, s.ch.acks, s.tracker)
    ensures NextAnswers(tokens, NextPacket(s, due).0, NextPacket(s, due).1, s.link.epoch, pending, answers)
    ensures forall a :: a in NextPacket(s, due).0.ch.acks ==> a in s.ch.acks
  {
    hide NextRequest, Owned, Settle, AllRecorded, PollRest, Insert;
    if s.inflight.replay == [] {
      var ch := s.ch.(disconnect := CloseIfDropped(s.ch.disconnect), acks := Settle(s.ch.acks, s.tracker, s.link.epoch).0);
      RestIsNoAck(ch, s.pool, due && s.link.keepAlive.Every?);
      LoopIsOnePass(s, due);
      NothingStale(tokens, s, pending);
      SettleAnswersFirst(tokens, s.ch.acks, s.tracker, s.link.epoch, pending, answers);
      if HeadReady(s.tracker) {
        SettleHead(s.ch.acks, s.tracker, s.link.epoch, tokens, pending);
      }
    }
  }

  lemma SettleHead(acks: seq<AckRequest>, tracker: Tracker, epoch: nat, tokens: multiset<Token>, pending: seq<Token>)
    requires HeadReady(tracker) && Owned(tokens, acks, tracker, epoch, pending)
    ensures Settle(acks, tracker, epoch) == (acks, tracker[1..], Answer(tracker[0].value.value))
  {
  }

  lemma StepNextKeepsAcks(w: World, due: bool)
    requires AcksRight(w) && w.s.link.connected
    ensures AcksRight(StepNext(w, due))
  {
    hide NextPacket, Owned, AllRecorded, TokensOk, ReceivedOk;
    var h := w.inlog;
    NextKeepsAcks(multiset(w.tokens), w.s, due, Pending(h), h.answers);
    var kind := NextKind(w.s, due);
    var v := StepNext(w, due);
    if IsPubAck(NextPacket(w.s, due).1) {
      assert Pending(v.inlog) == Pending(h)[1..];
    }
  }

  // --- Tokens ---

  lemma ClaimsAppend(acks: seq<AckRequest>, a: AckRequest)
    ensures multiset(Claims(acks + [a])) == multiset(Claims(acks)) + multiset{ClaimOf(a)}
  {
    assert Claims(acks + [a]) == Claims(acks) + [ClaimOf(a)];
  }

  lemma AnswerKeepsOwned(tokens: seq<Token>, i: nat, acks: seq<AckRequest>, a: AckRequest, tracker: Tracker, epoch: nat, pending: seq<Token>)
    requires i < |tokens| && ClaimOf(a) == tokens[i]
    requires Owned(multiset(tokens), acks, tracker, epoch, pending)
    ensures Owned(multiset(tokens[..i] + tokens[i + 1..]), acks + [a], tracker, epoch, pending)
  {
    ClaimsAppend(acks, a);
    assert tokens == tokens[..i] + [tokens[i]] + tokens[i + 1..];
    var rest := multiset(tokens[..i] + tokens[i + 1..]);
    assert multiset(tokens) == rest + multiset{tokens[i]};
    forall x: Token | x.epoch == epoch
      ensures Owners(rest, acks + [a], tracker, x) == multiset(pending)[x]
    {
      assert Owners(multiset(tokens), acks, tracker, x) == multiset(pending)[x];
    }
  }

  lemma AnswerKeepsTokens(tokens: seq<Token>, i: nat, answers: map<nat, PubAck>, puback: PubAck, epoch: nat, issued: nat)
    requires TokensOk(tokens, answers, epoch, issued) && i < |tokens|
    ensures TokensOk(tokens[..i] + tokens[i + 1..], answers[tokens[i].serial := puback], epoch, issued)
  {
  }

  lemma StepAnswerKeepsAcks(w: World, i: nat, a: AckRequest)
    requires AcksRight(w) && i < |w.tokens| && ClaimOf(a) == w.tokens[i]
    ensures AcksRight(StepAnswer(w, i, a))
  {
    hide Owned, ReceivedOk;
    var v := StepAnswer(w, i, a);
    AnswerKeepsTokens(w.tokens, i, w.inlog.answers, a.puback, w.s.link.epoch, w.s.issued);
    if w.s.link.connected {
      AnswerKeepsOwned(w.tokens, i, w.s.ch.acks, a, w.s.tracker, w.s.link.epoch, Pending(w.inlog));
    }
    NewAnswer(w.inlog.answers, w.s.ch.acks, w.s.tracker, a);
  }

  /** A first answer does not disturb those given before. */
  lemma NewAnswer(answers: map<nat, PubAck>, acks: seq<AckRequest>, tracker: Tracker, a: AckRequest)
    requires AllRecorded(answers, acks, tracker) && a.notifier !in answers
    ensures AllRecorded(answers[a.notifier := a.puback], acks + [a], tracker)
  {
  }

  // --- One PUBLISH in ---

  lemma OwnersGrow(tokens: multiset<Token>, acks: seq<AckRequest>, tracker: Tracker, t: Token, x: Token)
    ensures Owners(tokens + multiset{t}, acks, tracker + [Entry(t.id, None)], x)
      == Owners(tokens, acks, tracker, x) + if x == t then 1 else 0
  {
    hide Claims, ReadyClaims;
    ReadyAppend(tracker, t.id);
  }

  lemma PendingGrows(pending: seq<Token>, t: Token, x: Token)
    ensures multiset(pending + [t])[x] == multiset(pending)[x] + if x == t then 1 else 0
  {
  }

  lemma ReceiptKeepsOwned(tokens: multiset<Token>, acks: seq<AckRequest>, tracker: Tracker, pending: seq<Token>, t: Token)
    requires Owned(tokens, acks, tracker, t.epoch, pending) && t.id !in Ids(tracker)
    ensures Owned(tokens + multiset{t}, acks, tracker + [Entry(t.id, None)], t.epoch, pending + [t])
  {
    hide Owners;
    var after := tracker + [Entry(t.id, None)];
    forall x: Token | x.epoch == t.epoch
      ensures Owners(tokens + multiset{t}, acks, after, x) == multiset(pending + [t])[x]
    {
      OwnersGrow(tokens, acks, tracker, t, x);
      PendingGrows(pending, t, x);
    }
  }

  lemma ReceiptKeepsTokens(tokens: seq<Token>, h: InLog, issued: nat, t: Token)
    requires TokensOk(tokens, h.answers, t.epoch, issued) && ReceivedOk(h.received, t.epoch, issued)
    requires t.serial == issued
    ensures TokensOk(tokens + [t], h.answers, t.epoch, issued + 1) && ReceivedOk(h.received + [t], t.epoch, issued + 1)
  {
  }

  lemma TrackerGrows(answers: map<nat, PubAck>, acks: seq<AckRequest>, tracker: Tracker, id: PacketId)
    requires AllRecorded(answers, acks, tracker)
    ensures AllRecorded(answers, acks, tracker + [Entry(id, None)])
  {
  }

  /** A PUBLISH is received, and its token handed to the application. */
  lemma HandedKeepsAcks(w: World, id: PacketId) returns (v: World)
    requires AcksRight(w) && w.s.link.connected && id !in Ids(w.s.tracker)
    ensures var t := Token(w.s.issued, id, w.s.link.epoch);
      && v == w.(s := w.s.(tracker := w.s.tracker + [Entry(id, None)], issued := w.s.issued + 1),
                 tokens := w.tokens + [t], inlog := w.inlog.(received := w.inlog.received + [t]))
      && AcksRight(v)
  {
    hide Owned, TokensOk, ReceivedOk, AllRecorded;
    var t := Token(w.s.issued, id, w.s.link.epoch);
    v := w.(s := w.s.(tracker := w.s.tracker + [Entry(id, None)], issued := w.s.issued + 1),
            tokens := w.tokens + [t], inlog := w.inlog.(received := w.inlog.received + [t]));
    ReceiptKeepsOwned(multiset(w.tokens), w.s.ch.acks, w.s.tracker, Pending(w.inlog), t);
    ReceiptKeepsTokens(w.tokens, w.inlog, w.s.issued, t);
    TrackerGrows(w.inlog.answers, w.s.ch.acks, w.s.tracker, id);
    assert Pending(v.inlog) == Pending(w.inlog) + [t];
    assert multiset(v.tokens) == multiset(w.tokens) + multiset{t};
  }

  /** Without a receiver, the token is dropped as soon as it is made. */
  lemma PublishInKeepsAcks(w: World, p: Publish, gone: bool)
    requires AcksRight(w) && w.s.link.connected
    ensures AcksRight(StepPublishIn(w, p, gone))
  {
    hide AcksRight;
    if p.delivery.Acked? && p.delivery.id !in Ids(w.s.tracker) {
      var v := HandedKeepsAcks(w, p.delivery.id);
      if gone {
        var i := |w.tokens|;
        StepAnswerKeepsAcks(v, i, DroppedAnswer(v.tokens[i]));
        assert v.tokens[..i] + v.tokens[i + 1..] == w.tokens;
        assert StepPublishIn(w, p, gone) == StepAnswer(v, i, DroppedAnswer(v.tokens[i]));
      } else {
        assert StepPublishIn(w, p, gone) == v;
      }
    }
  }

  // --- A new connection ---

  /** Nothing from earlier connections counts on a new one. */
  lemma NewEpoch(tokens: seq<Token>, acks: seq<AckRequest>, epoch: nat)
    requires forall i :: 0 <= i < |tokens| ==> tokens[i].epoch < epoch
    requires forall a :: a in acks ==> a.epoch < epoch
    ensures Owned(multiset(tokens), acks, [], epoch, [])
  {
  }

  lemma ConnAckKeepsAcks(w: World, connack: ConnAck, asked: Asked, lenient: bool)
    requires AcksRight(w) && !w.s.link.connected
    ensures AcksRight(StepConnAck(w, connack, asked, lenient))
  {
    hide Owned;
    NewEpoch(w.tokens, w.s.ch.acks, w.s.link.epoch + 1);
  }

  lemma StepKeepsAcks(w: World, e: Event)
    requires Enabled(w, e) && AcksRight(w)
    ensures AcksRight(Step(w, e))
  {
    hide StepNext, StepAnswer, StepPublishIn, StepConnAck, Owned, TokensOk, ReceivedOk, AllRecorded, CompletePublish;
    match e {
      case Next(due) => StepNextKeepsAcks(w, due);
      case UseToken(i, reason, properties) => StepAnswerKeepsAcks(w, i, AnswerOf(w.tokens[i], reason, properties));
      case DropToken(i) => StepAnswerKeepsAcks(w, i, DroppedAnswer(w.tokens[i]));
      case InPublish(p, gone) => PublishInKeepsAcks(w, p, gone);
      case InConnAck(connack, asked, lenient) => ConnAckKeepsAcks(w, connack, asked, lenient);
      case InPubAck(puback) => PubAckIsElsewhere(w.s, puback);
      case Leave(_) => TrackerCleared(w.inlog.answers, w.s.ch.acks, w.s.tracker);
      case Lose => TrackerCleared(w.inlog.answers, w.s.ch.acks, w.s.tracker);
      case _ =>
    }
  }

  lemma PubAckIsElsewhere(s: State, puback: PubAck)
    ensures var t := CompletePublish(s, puback).0;
      t.ch == s.ch && t.tracker == s.tracker && t.link == s.link && t.issued == s.issued
  {
  }

  lemma TrackerCleared(answers: map<nat, PubAck>, acks: seq<AckRequest>, tracker: Tracker)
    requires AllRecorded(answers, acks, tracker)
    ensures AllRecorded(answers, acks, [])
  {
  }

  lemma {:induction false} AcksAlwaysRight(ws: seq<World>, es: seq<Event>, i: nat)
    requires Run(ws, es) && i < |ws|
    ensures AcksRight(ws[i])
  {
    hide Step, AcksRight;
    if i > 0 {
      AcksAlwaysRight(ws, es, i - 1);
      StepKeepsAcks(ws[i - 1], es[i - 1]);
    } else {
      var max: PacketId :| ws[0] == NewWorld(max);
      NewAcksRight(max);
    }
  }

  lemma NewAcksRight(max: PacketId)
    ensures AcksRight(NewWorld(max))
  {
  }

  // --- What this means ---

  /**
   * The PUBACKs given out on a connection are, in order and without repeats, the application's answers to the first of
   * the QoS 1 PUBLISHes received on that connection.
   */
  lemma AcknowledgedInOrder(ws: seq<World>, es: seq<Event>, i: nat)
    requires Run(ws, es) && i < |ws| && ws[i].s.link.connected
    ensures var h, epoch := ws[i].inlog, ws[i].s.link.epoch;
      && |h.acked| <= |h.received|
      && (forall k :: 0 <= k < |h.acked| ==>
        && h.received[k].epoch == epoch && h.received[k].serial in h.answers
        && h.acked[k] == h.answers[h.received[k].serial] && h.acked[k].id == h.received[k].id)
      && (forall j, k :: 0 <= j < k < |h.received| ==> h.received[j].serial < h.received[k].serial)
  {
    AcksAlwaysRight(ws, es, i);
  }

  /** The tokens of this connection that the application holds for an identifier. */
  function LiveFor(tokens: seq<Token>, epoch: nat, id: PacketId): nat {
    if tokens == [] then 0
    else (if tokens[0].epoch == epoch && tokens[0].id == id then 1 else 0) + LiveFor(tokens[1..], epoch, id)
  }

  /** The requests of this connection in the channel for an identifier. */
  function QueuedFor(acks: seq<AckRequest>, epoch: nat, id: PacketId): nat {
    if acks == [] then 0
    else (if acks[0].epoch == epoch && acks[0].puback.id == id then 1 else 0) + QueuedFor(acks[1..], epoch, id)
  }

  function ReadyFor(tracker: Tracker, id: PacketId): nat {
    var i := Find(tracker, id);
    if i < |tracker| && tracker[i].value.Some? then 1 else 0
  }

  /** If only `x` can be a token of this connection for the identifier, its copies are all there are. */
  lemma {:induction false} LiveIsCount(tokens: seq<Token>, x: Token)
    requires forall i :: 0 <= i < |tokens| && tokens[i].epoch == x.epoch && tokens[i].id == x.id ==> tokens[i] == x
    ensures LiveFor(tokens, x.epoch, x.id) == multiset(tokens)[x]
  {
    if tokens != [] {
      LiveIsCount(tokens[1..], x);
      assert tokens == [tokens[0]] + tokens[1..];
    }
  }

  lemma {:induction false} QueuedIsLive(acks: seq<AckRequest>, epoch: nat, id: PacketId)
    ensures QueuedFor(acks, epoch, id) == LiveFor(Claims(acks), epoch, id)
  {
    if acks != [] {
      QueuedIsLive(acks[1..], epoch, id);
      assert Claims(acks)[1..] == Claims(acks[1..]);
    }
  }

  lemma {:induction false} NoneLive(tokens: seq<Token>, epoch: nat, id: PacketId)
    requires forall i :: 0 <= i < |tokens| ==> !(tokens[i].epoch == epoch && tokens[i].id == id)
    ensures LiveFor(tokens, epoch, id) == 0
  {
    if tokens != [] {
      NoneLive(tokens[1..], epoch, id);
    }
  }

  /** Whoever holds a claim of this connection holds it for a PUBLISH that waits. */
  lemma ClaimsWait(w: World, x: Token) returns (j: nat)
    requires AcksRight(w) && w.s.link.connected && x.epoch == w.s.link.epoch
    requires x in w.tokens || x in Claims(w.s.ch.acks)
    ensures j < |w.s.tracker| && w.s.tracker[j].id == x.id && Pending(w.inlog)[j] == x
  {
    assert Owners(multiset(w.tokens), w.s.ch.acks, w.s.tracker, x) > 0;
    assert x in multiset(Pending(w.inlog));
    j :| 0 <= j < |Pending(w.inlog)| && Pending(w.inlog)[j] == x;
  }

  lemma WaitsOnce(w: World, x: Token, j: nat, id: PacketId)
    requires AcksRight(w) && w.s.link.connected && x.epoch == w.s.link.epoch && x.id == id
    requires x in w.tokens || x in Claims(w.s.ch.acks)
    requires j < |w.s.tracker| && w.s.tracker[j].id == id
    ensures x == Pending(w.inlog)[j]
  {
    var k := ClaimsWait(w, x);
  }

  lemma OwnedOnceHere(w: World, id: PacketId)
    requires AcksRight(w) && w.s.link.connected
    ensures LiveFor(w.tokens, w.s.link.epoch, id) + QueuedFor(w.s.ch.acks, w.s.link.epoch, id) + ReadyFor(w.s.tracker, id)
      == if id in Ids(w.s.tracker) then 1 else 0
  {
    var epoch, acks, pending := w.s.link.epoch, w.s.ch.acks, Pending(w.inlog);
    QueuedIsLive(acks, epoch, id);
    var j := Find(w.s.tracker, id);
    if j < |w.s.tracker| {
      var x := pending[j];
      forall i | 0 <= i < |w.tokens| && w.tokens[i].epoch == epoch && w.tokens[i].id == id
        ensures w.tokens[i] == x
      {
        WaitsOnce(w, w.tokens[i], j, id);
      }
      forall i | 0 <= i < |acks| && Claims(acks)[i].epoch == epoch && Claims(acks)[i].id == id
        ensures Claims(acks)[i] == x
      {
        WaitsOnce(w, Claims(acks)[i], j, id);
      }
      LiveIsCount(w.tokens, x);
      LiveIsCount(Claims(acks), x);
      ReadyCount(w, j);
    } else {
      forall i | 0 <= i < |w.tokens|
        ensures !(w.tokens[i].epoch == epoch && w.tokens[i].id == id)
      {
        if w.tokens[i].epoch == epoch && w.tokens[i].id == id {
          var k := ClaimsWait(w, w.tokens[i]);
        }
      }
      forall i | 0 <= i < |acks|
        ensures !(Claims(acks)[i].epoch == epoch && Claims(acks)[i].id == id)
      {
        if Claims(acks)[i].epoch == epoch && Claims(acks)[i].id == id {
          var k := ClaimsWait(w, Claims(acks)[i]);
        }
      }
      NoneLive(w.tokens, epoch, id);
      NoneLive(Claims(acks), epoch, id);
    }
  }

  lemma ReadyCount(w: World, j: nat)
    requires AcksRight(w) && w.s.link.connected && j < |w.s.tracker|
    ensures var x := Pending(w.inlog)[j];
      multiset(w.tokens)[x] + multiset(Claims(w.s.ch.acks))[x] + (if w.s.tracker[j].value.Some? then 1 else 0) == 1
  {
    var pending, tracker := Pending(w.inlog), w.s.tracker;
    var x := pending[j];
    OnceEach(pending, tracker, j);
    assert Owners(multiset(w.tokens), w.s.ch.acks, tracker, x) == 1;
    forall k | 0 <= k < |tracker| && tracker[k].value.Some?
      ensures ClaimOf(tracker[k].value.value) == pending[k]
    {
      ReadyIsOwn(multiset(w.tokens), w.s.ch.acks, tracker, w.s.link.epoch, pending, k);
    }
    if tracker[j].value.Some? {
      ReadyHas(tracker, j);
    } else {
      NotReady(tracker, x);
    }
  }

  /**
   * In every run, a tracked identifier is owned by exactly one of a token of this connection, a request of this
   * connection in the channel, and its own entry; an untracked one is owned by none.
   */
  lemma OwnedExactlyOnce(ws: seq<World>, es: seq<Event>, i: nat, id: PacketId)
    requires Run(ws, es) && i < |ws| && ws[i].s.link.connected
    ensures var w, epoch := ws[i], ws[i].s.link.epoch;
      LiveFor(w.tokens, epoch, id) + QueuedFor(w.s.ch.acks, epoch, id) + ReadyFor(w.s.tracker, id)
      == if id in Ids(w.s.tracker) then 1 else 0
  {
    AcksAlwaysRight(ws, es, i);
    OwnedOnceHere(ws[i], id);
  }

  /** A PUBLISH with this identifier was received on this connection and is not acknowledged yet. */
  ghost predicate Unacknowledged(h: InLog, id: PacketId) {
    exists k :: |h.acked| <= k < |h.received| && h.received[k].id == id
  }

  /**
   * No request is ever taken for forged, and a QoS 1 PUBLISH is refused exactly if its identifier is that of a PUBLISH
   * received on this connection and not acknowledged yet.
   */
  lemma NeverPanics(ws: seq<World>, es: seq<Event>, i: nat, due: bool, p: Publish, gone: bool)
    requires Run(ws, es) && i < |ws| && ws[i].s.link.connected
    ensures !NextPacket(ws[i].s, due).1.Panic?
    ensures p.delivery.Acked? ==>
      (IncomingPublish(ws[i].s, p, gone).1.Panicked? <==> Unacknowledged(ws[i].inlog, p.delivery.id))
  {
    hide AcksRight, Step, NextPacket;
    AcksAlwaysRight(ws, es, i);
    NextNeverPanics(ws[i], due);
    if p.delivery.Acked? {
      TrackedIsUnacknowledged(ws[i], p.delivery.id);
    }
  }

  lemma TrackedIsUnacknowledged(w: World, id: PacketId)
    requires AcksRight(w) && w.s.link.connected
    ensures id in Ids(w.s.tracker) <==> Unacknowledged(w.inlog, id)
  {
    hide Owners;
    var h := w.inlog;
    if id in Ids(w.s.tracker) {
      var j :| 0 <= j < |w.s.tracker| && w.s.tracker[j].id == id;
      assert h.received[|h.acked| + j].id == id;
    }
    if Unacknowledged(h, id) {
      var k :| |h.acked| <= k < |h.received| && h.received[k].id == id;
      assert w.s.tracker[k - |h.acked|].id == id;
    }
  }

  lemma NextNeverPanics(w: World, due: bool)
    requires AcksRight(w) && w.s.link.connected
    ensures !NextPacket(w.s, due).1.Panic?
  {
    hide NextPacket;
    NextKeepsAcks(multiset(w.tokens), w.s, due, Pending(w.inlog), w.inlog.answers);
  }

  /** The packet after the acknowledgements have settled, if nothing goes before them. */
  lemma NextAfterSettling(tokens: multiset<Token>, s: State, due: bool, pending: seq<Token>)
    requires Owned(tokens, s.ch.acks, s.tracker, s.link.epoch, pending)
    requires s.inflight.replay == [] && !s.ch.disconnect.Requested?
    ensures match Settle(s.ch.acks, s.tracker, s.link.epoch).2
      case Answer(a) => NextPacket(s, due).1 == Sending(Control(PubAckPacket(a.puback)))
      case Empty => !IsPubAck(NextPacket(s, due).1)
      case Stray => true
  {
    hide Owned, NextRequest, Settle, PollRest, Insert;
    LoopIsOnePass(s, due);
    NothingStale(tokens, s, pending);
    if HeadReady(s.tracker) {
      SettleHead(s.ch.acks, s.tracker, s.link.epoch, tokens, pending);
    }
    var ch := s.ch.(disconnect := CloseIfDropped(s.ch.disconnect), acks := Settle(s.ch.acks, s.tracker, s.link.epoch).0);
    RestIsNoAck(ch, s.pool, due && s.link.keepAlive.Every?);
  }

  lemma AnsweredIsNextHere(w: World, due: bool)
    requires AcksRight(w) && w.s.link.connected
    requires w.s.inflight.replay == [] && !w.s.ch.disconnect.Requested? && Pending(w.inlog) != []
    ensures var oldest := Pending(w.inlog)[0]; var out := NextPacket(w.s, due).1;
      if oldest in w.tokens then !IsPubAck(out)
      else oldest.serial in w.inlog.answers && out == Sending(Control(PubAckPacket(w.inlog.answers[oldest.serial])))
  {
    hide Owned, AllRecorded, TokensOk, ReceivedOk, AckedInOrder, NextPacket, Settle;
    var tokens, pending := multiset(w.tokens), Pending(w.inlog);
    NextAfterSettling(tokens, w.s, due, pending);
    SettleAnswersFirst(tokens, w.s.ch.acks, w.s.tracker, w.s.link.epoch, pending, w.inlog.answers);
    SettleMakesProgress(tokens, w.s.ch.acks, w.s.tracker, w.s.link.epoch, pending, w.inlog.answers);
  }

  /**
   * Once the application has used or dropped the token of the oldest PUBLISH that waits, its PUBACK is the next packet,
   * unless a replay or a DISCONNECT goes first; until then, no PUBACK comes out.
   */
  lemma AnsweredIsNext(ws: seq<World>, es: seq<Event>, i: nat, due: bool)
    requires Run(ws, es) && i < |ws|
    requires var w := ws[i];
      w.s.link.connected && w.s.inflight.replay == [] && !w.s.ch.disconnect.Requested? && Pending(w.inlog) != []
    ensures var w := ws[i]; var oldest := Pending(w.inlog)[0]; var out := NextPacket(w.s, due).1;
      if oldest in w.tokens then !IsPubAck(out)
      else oldest.serial in w.inlog.answers && out == Sending(Control(PubAckPacket(w.inlog.answers[oldest.serial])))
  {
    hide AcksRight, Step, NextPacket, Run;
    AcksAlwaysRight(ws, es, i);
    AnsweredIsNextHere(ws[i], due);
  }
}
